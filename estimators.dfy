/** The two windowed estimators of the PFC core: the block average
    `PFC_Average` (DC-bus voltage and AC offset) and the block mean-square
    `PFC_SquaredRMSCalculate` (input-voltage protection and start-up gating).
    Each is a pure step function on the record's value, with lemmas about
    runs of it, and a class whose `Update` method changes the record in place
    as the C code does through its pointer. */
module Estimators {
  import opened FixedPoint

  /** Sum of a sequence, peeled from the right so that it follows a running
      accumulator. */
  function Sum(xs: seq<int>): int
  {
    if xs == [] then 0 else Sum(xs[..|xs| - 1]) + xs[|xs| - 1]
  }

  /** Concatenation of a sequence of windows, peeled from the right. */
  function Flatten(ws: seq<seq<Int16>>): seq<Int16>
  {
    if ws == [] then [] else Flatten(ws[..|ws| - 1]) + ws[|ws| - 1]
  }

  lemma {:induction false} SumBounds(xs: seq<Int16>)
    ensures -0x8000 * |xs| <= Sum(xs) <= 0x7FFF * |xs|
  {
    if xs != [] {
      SumBounds(xs[..|xs| - 1]);
    }
  }

  // ---------------------------------------------------------------------
  // Block average (PFC_AVG_T, PFC_Average)
  // ---------------------------------------------------------------------

  /** Value of a `PFC_AVG_T`: running sum and sample count of the current
      window, window length, the shift the window length is derived from
      (`sampleLimit == 1 << scaler` for the DC-bus average), last emitted
      average and ready flag. */
  datatype Avg = Avg(sum: int, samples: nat, sampleLimit: nat, scaler: nat, output: Int16, status: int)

  /** `PFC_Average`: add one input; when the count reaches the window length,
      emit the truncated quotient of the sum by the window length, raise the
      ready flag and restart the window. */
  function AverageStep(a: Avg, input: Int16): (r: Avg)
    requires a.sampleLimit > 0
    ensures r.sampleLimit == a.sampleLimit && r.scaler == a.scaler
    ensures r.samples < r.sampleLimit
  {
    var sum, samples := a.sum + input, a.samples + 1;
    if samples >= a.sampleLimit then
      a.(output := Wrap16(TruncDiv(sum, a.sampleLimit)), status := 1, sum := 0, samples := 0)
    else
      a.(sum := sum, samples := samples)
  }

  /** The averager after the inputs `xs`, oldest first. */
  function AverageRun(a: Avg, xs: seq<Int16>): (r: Avg)
    requires a.sampleLimit > 0
    ensures r.sampleLimit == a.sampleLimit
  {
    if xs == [] then a else AverageStep(AverageRun(a, xs[..|xs| - 1]), xs[|xs| - 1])
  }

  /** An averager at the start of a window. */
  predicate AverageAtWindowStart(a: Avg)
  {
    a.sampleLimit > 0 && a.sum == 0 && a.samples == 0
  }

  /** The average of a window of int16 samples fits in int16, so the
      `(int16_t)` cast of the quotient loses nothing. */
  lemma AverageFits(xs: seq<Int16>)
    requires |xs| > 0
    ensures -0x8000 <= TruncDiv(Sum(xs), |xs|) <= 0x7FFF
  {
    var n, s := |xs|, Sum(xs);
    var q := TruncDiv(s, n);
    SumBounds(xs);
    TruncDivBounds(s, n);
    if q > 0 {
      assert q * n <= 0x7FFF * n;
      LessFromProducts(q, 0x8000, n);
    } else if q < 0 {
      assert Abs(q) * n <= 0x8000 * n;
      LessFromProducts(Abs(q), 0x8001, n);
    }
  }

  /** Within one window started from a reset record: before the window is
      full the sum is the running total of the inputs and the output and
      ready flag are untouched; on the call that fills it the output is the
      truncated average of exactly those `sampleLimit` inputs, the flag is
      raised and the sum and count are back to zero. */
  lemma {:induction false} AverageWindow(a: Avg, xs: seq<Int16>)
    requires AverageAtWindowStart(a) && |xs| <= a.sampleLimit
    ensures |xs| < a.sampleLimit ==> AverageRun(a, xs) == a.(sum := Sum(xs), samples := |xs|)
    ensures |xs| == a.sampleLimit ==> -0x8000 <= TruncDiv(Sum(xs), a.sampleLimit) <= 0x7FFF
    ensures |xs| == a.sampleLimit ==>
      AverageRun(a, xs) == a.(output := TruncDiv(Sum(xs), a.sampleLimit), status := 1)
  {
    if xs != [] {
      var init := xs[..|xs| - 1];
      AverageWindow(a, init);
      if |xs| == a.sampleLimit {
        AverageFits(xs);
      }
    }
  }

  lemma {:induction false} AverageRunAppend(a: Avg, xs: seq<Int16>, ys: seq<Int16>)
    requires a.sampleLimit > 0
    ensures AverageRun(a, xs + ys) == AverageRun(AverageRun(a, xs), ys)
  {
    if ys != [] {
      var zs := xs + ys;
      assert zs[..|zs| - 1] == xs + ys[..|ys| - 1];
      assert zs[|zs| - 1] == ys[|ys| - 1];
      AverageRunAppend(a, xs, ys[..|ys| - 1]);
    } else {
      assert xs + ys == xs;
    }
  }

  /** After any number of complete windows and a partial one, fed to a reset
      averager: the output is the truncated average of the most recent
      complete window, the ready flag is raised, and the sum and count are
      those of the partial window. */
  lemma {:induction false} AverageLatestWindow(a: Avg, ws: seq<seq<Int16>>, tail: seq<Int16>)
    requires AverageAtWindowStart(a) && |ws| > 0 && |tail| < a.sampleLimit
    requires forall i :: 0 <= i < |ws| ==> |ws[i]| == a.sampleLimit
    ensures -0x8000 <= TruncDiv(Sum(ws[|ws| - 1]), a.sampleLimit) <= 0x7FFF
    ensures AverageRun(a, Flatten(ws) + tail) ==
      a.(output := TruncDiv(Sum(ws[|ws| - 1]), a.sampleLimit), status := 1, sum := Sum(tail), samples := |tail|)
  {
    var last := ws[|ws| - 1];
    var before := Flatten(ws[..|ws| - 1]);
    var b := AverageRun(a, before);
    if |ws| == 1 {
      assert before == [];
    } else {
      AverageLatestWindow(a, ws[..|ws| - 1], []);
      assert before + [] == before;
    }
    assert AverageAtWindowStart(b);
    AverageWindow(b, last);
    AverageWindow(AverageRun(b, last), tail);
    AverageRunAppend(a, before, last);
    AverageRunAppend(a, before + last, tail);
  }

  /** A `PFC_AVG_T` updated in place. */
  class Averager {
    var sum: int
    var samples: nat
    var sampleLimit: nat
    var scaler: nat
    var output: Int16
    var status: int

    ghost function Value(): Avg
      reads this
    {
      Avg(sum, samples, sampleLimit, scaler, output, status)
    }

    /** A record in zero-initialised static storage. */
    constructor ()
      ensures Value() == Avg(0, 0, 0, 0, 0, 0)
    {
      sum, samples, sampleLimit, scaler, output, status := 0, 0, 0, 0, 0, 0;
    }

    /** `PFC_Average`. */
    method Update(input: Int16)
      requires sampleLimit > 0
      modifies this
      ensures Value() == AverageStep(old(Value()), input)
      ensures samples < sampleLimit
    {
      sum := sum + input;
      samples := samples + 1;
      if samples >= sampleLimit {
        output := Wrap16(TruncDiv(sum, sampleLimit));
        status := 1;
        sum := 0;
        samples := 0;
      }
    }
  }

  // ---------------------------------------------------------------------
  // Block mean-square (PFC_RMS_SQUARE_T, PFC_SquaredRMSCalculate)
  // ---------------------------------------------------------------------

  /** Value of a `PFC_RMS_SQUARE_T`: running sum of squares and sample count,
      window length, last emitted mean-square, ready flag, and the peak field
      (reset but otherwise unused by the core). */
  datatype Rms = Rms(sum: int, samples: nat, sampleLimit: nat, sqrOutput: Int16, status: int, peak: int)

  /** The term added for one input: the Q15 square `(x * x) >> 15`, cast to
      int16. It lies in [0, 0x7FFE] for every input except -0x8000, whose
      square 2^30 shifts to 2^15 and wraps to -0x8000. */
  function SquareTerm(x: Int16): (r: Int16)
    ensures x != -0x8000 ==> 0 <= r <= 0x7FFE && r == x * x / 0x8000
    ensures x == -0x8000 ==> r == -0x8000
  {
    assert Pow2(15) == 0x8000;
    SquareBound(x);
    Wrap16(Shr(x * x, 15))
  }

  lemma SquareBound(x: Int16)
    ensures x != -0x8000 ==> 0 <= x * x <= 0x7FFF * 0x7FFF
  {
    assert x * x == Abs(x) * Abs(x);
    if x != -0x8000 {
      assert Abs(x) * Abs(x) <= 0x7FFF * Abs(x);
    }
  }

  /** Sum of the terms of a sequence of inputs. */
  function SquareSum(xs: seq<Int16>): int
  {
    if xs == [] then 0 else SquareSum(xs[..|xs| - 1]) + SquareTerm(xs[|xs| - 1])
  }

  /** `PFC_SquaredRMSCalculate`: add the input's term; while the count is
      below the window length, count the input; on the call made when the
      count already equals the window length, emit the truncated quotient of
      the sum by the window length, raise the ready flag and restart. The
      emitting call's own term is part of the emitted sum, so a window holds
      `sampleLimit + 1` terms and is divided by `sampleLimit`. */
  function RmsStep(a: Rms, input: Int16): (r: Rms)
    requires a.sampleLimit > 0
    ensures r.sampleLimit == a.sampleLimit && r.samples <= r.sampleLimit
  {
    var sum := a.sum + SquareTerm(input);
    if a.samples < a.sampleLimit then
      a.(sum := sum, samples := a.samples + 1)
    else
      a.(sqrOutput := Wrap16(TruncDiv(sum, a.sampleLimit)), status := 1, samples := 0, sum := 0)
  }

  function RmsRun(a: Rms, xs: seq<Int16>): (r: Rms)
    requires a.sampleLimit > 0
    ensures r.sampleLimit == a.sampleLimit
  {
    if xs == [] then a else RmsStep(RmsRun(a, xs[..|xs| - 1]), xs[|xs| - 1])
  }

  predicate RmsAtWindowStart(a: Rms)
  {
    a.sampleLimit > 0 && a.sum == 0 && a.samples == 0
  }

  /** One mean-square window from a reset record: the first `sampleLimit`
      calls only accumulate (the ready flag and output are untouched), and
      the next call, the `sampleLimit + 1`-th, emits the sum of all
      `sampleLimit + 1` terms divided by `sampleLimit` and restarts. */
  lemma {:induction false} RmsWindow(a: Rms, xs: seq<Int16>)
    requires RmsAtWindowStart(a) && |xs| <= a.sampleLimit + 1
    ensures |xs| <= a.sampleLimit ==> RmsRun(a, xs) == a.(sum := SquareSum(xs), samples := |xs|)
    ensures |xs| == a.sampleLimit + 1 ==>
      RmsRun(a, xs) == a.(sqrOutput := Wrap16(TruncDiv(SquareSum(xs), a.sampleLimit)), status := 1)
  {
    if xs != [] {
      RmsWindow(a, xs[..|xs| - 1]);
    }
  }

  lemma {:induction false} RmsRunAppend(a: Rms, xs: seq<Int16>, ys: seq<Int16>)
    requires a.sampleLimit > 0
    ensures RmsRun(a, xs + ys) == RmsRun(RmsRun(a, xs), ys)
  {
    if ys != [] {
      var zs := xs + ys;
      assert zs[..|zs| - 1] == xs + ys[..|ys| - 1];
      assert zs[|zs| - 1] == ys[|ys| - 1];
      RmsRunAppend(a, xs, ys[..|ys| - 1]);
    } else {
      assert xs + ys == xs;
    }
  }

  /** After complete windows of `sampleLimit + 1` inputs and a partial one:
      the output is the emitted quotient of the most recent complete window
      and the running sum is that of the partial window. So the ready flag
      is raised once every `sampleLimit + 1` calls. */
  lemma {:induction false} RmsLatestWindow(a: Rms, ws: seq<seq<Int16>>, tail: seq<Int16>)
    requires RmsAtWindowStart(a) && |ws| > 0 && |tail| <= a.sampleLimit
    requires forall i :: 0 <= i < |ws| ==> |ws[i]| == a.sampleLimit + 1
    ensures RmsRun(a, Flatten(ws) + tail) ==
      a.(sqrOutput := Wrap16(TruncDiv(SquareSum(ws[|ws| - 1]), a.sampleLimit)), status := 1,
         sum := SquareSum(tail), samples := |tail|)
  {
    var last := ws[|ws| - 1];
    var before := Flatten(ws[..|ws| - 1]);
    var b := RmsRun(a, before);
    if |ws| == 1 {
      assert before == [];
    } else {
      RmsLatestWindow(a, ws[..|ws| - 1], []);
      assert before + [] == before;
    }
    assert RmsAtWindowStart(b);
    RmsWindow(b, last);
    RmsWindow(RmsRun(b, last), tail);
    RmsRunAppend(a, before, last);
    RmsRunAppend(a, before + last, tail);
  }

  /** No input is -0x8000, the one value whose term wraps. */
  predicate NoMostNegative(xs: seq<Int16>)
  {
    forall i :: 0 <= i < |xs| ==> xs[i] != -0x8000
  }

  /** Every term is non-negative unless an input is -0x8000, so then the
      running sum is non-negative and bounded by 0x7FFE per input. */
  lemma {:induction false} SquareSumBounds(xs: seq<Int16>)
    requires NoMostNegative(xs)
    ensures 0 <= SquareSum(xs) <= 0x7FFE * |xs|
  {
    if xs != [] {
      SquareSumBounds(xs[..|xs| - 1]);
    }
  }

  /** The emitted mean-square of a window without -0x8000 inputs: the
      quotient is non-negative; whenever it fits in int16 the truncating
      divide and the cast return it exactly; and with a window length of at
      least 0x4000 it always fits, whatever the inputs. */
  lemma RmsOutputInRange(xs: seq<Int16>, limit: nat)
    requires limit > 0 && NoMostNegative(xs)
    ensures 0 <= SquareSum(xs) / limit
    ensures SquareSum(xs) / limit < 0x8000 ==> Wrap16(TruncDiv(SquareSum(xs), limit)) == SquareSum(xs) / limit
    ensures |xs| <= limit + 1 && limit >= 0x4000 ==> SquareSum(xs) / limit < 0x8000
  {
    var s := SquareSum(xs);
    SquareSumBounds(xs);
    DivNonNeg(s, limit);
    if |xs| <= limit + 1 && limit >= 0x4000 {
      FloorDivBounds(s, limit);
      assert s <= 0x7FFE * (limit + 1) < 0x8000 * limit;
      assert (s / limit) * limit < 0x8000 * limit;
      LessFromProducts(s / limit, 0x8000, limit);
    }
  }

  /** The mean-square the estimator holds after complete windows and a
      partial one, when the latest complete window has no -0x8000 input: it
      is the non-negative quotient of that window's terms by the window
      length whenever that quotient fits in int16, which it always does for
      a window length of at least 0x4000. */
  lemma RmsLatestOutput(a: Rms, ws: seq<seq<Int16>>, tail: seq<Int16>)
    requires RmsAtWindowStart(a) && |ws| > 0 && |tail| <= a.sampleLimit
    requires forall i :: 0 <= i < |ws| ==> |ws[i]| == a.sampleLimit + 1
    requires NoMostNegative(ws[|ws| - 1])
    ensures var q := SquareSum(ws[|ws| - 1]) / a.sampleLimit;
      var out := RmsRun(a, Flatten(ws) + tail).sqrOutput;
      && 0 <= q
      && (q < 0x8000 ==> out == q)
      && (a.sampleLimit >= 0x4000 ==> out == q)
  {
    RmsLatestWindow(a, ws, tail);
    RmsOutputInRange(ws[|ws| - 1], a.sampleLimit);
  }

  /** With a short window the `sampleLimit + 1` terms can sum to more than
      the window length times 0x7FFF: two full-scale inputs with a window
      length of 1 give the quotient 0xFFFC, outside int16. On the target
      that is a divide overflow of `__builtin_divsd`; the model's narrowing
      of the exact quotient turns it into -4. */
  lemma RmsOutputCanWrap()
    ensures SquareSum([0x7FFF, 0x7FFF]) / 1 == 0xFFFC
    ensures RmsRun(Rms(0, 0, 1, 0, 0, 0), [0x7FFF, 0x7FFF]).sqrOutput == -4
  {
    var a := Rms(0, 0, 1, 0, 0, 0);
    assert SquareTerm(0x7FFF) == 0x7FFE;
    assert [0x7FFF, 0x7FFF][..1] == [0x7FFF];
    assert [0x7FFF][..0] == [];
    assert RmsRun(a, [0x7FFF]) == a.(sum := 0x7FFE, samples := 1);
  }

  /** A `PFC_RMS_SQUARE_T` updated in place. */
  class RmsEstimator {
    var sum: int
    var samples: nat
    var sampleLimit: nat
    var sqrOutput: Int16
    var status: int
    var peak: int

    ghost function Value(): Rms
      reads this
    {
      Rms(sum, samples, sampleLimit, sqrOutput, status, peak)
    }

    /** A record in zero-initialised static storage. */
    constructor ()
      ensures Value() == Rms(0, 0, 0, 0, 0, 0)
    {
      sum, samples, sampleLimit, sqrOutput, status, peak := 0, 0, 0, 0, 0, 0;
    }

    /** `PFC_SquaredRMSCalculate`. */
    method Update(input: Int16)
      requires sampleLimit > 0
      modifies this
      ensures Value() == RmsStep(old(Value()), input)
      ensures samples <= sampleLimit
    {
      sum := sum + SquareTerm(input);
      if samples < sampleLimit {
        samples := samples + 1;
      } else {
        sqrOutput := Wrap16(TruncDiv(sum, sampleLimit));
        status := 1;
        samples := 0;
        sum := 0;
      }
    }
  }
}
