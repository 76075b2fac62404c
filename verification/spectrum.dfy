/**
 Spectrum-to-bands reduction of `PlayerBackend.play_stream`: one 1024-bin
 FFT snapshot is cut into `lights` contiguous bands of bins, the peak of each
 band is taken and turned into an intensity in [0,100].

 The band boundaries follow a cursor `b0` over the bins. Band `band` ends at
 the bin `ceil(2^band * 10 / (lights - 1))`, clamped to the last bin and
 forced one bin past the cursor when it would not advance.
 */
module Spectrum {

  /** Number of magnitude bins of a BASS_DATA_FFT2048 snapshot. */
  const FftBins: int := 1024
  /** Index of the last bin, the clamp for a band's upper bound. */
  const LastBin: int := FftBins - 1
  /** Largest intensity a band can report. */
  const MaxLevel: int := 100

  /** The Python exceptions the band loop can raise. */
  datatype Fault =
    | ZeroDivision                  // `10./(lights-1)` with lights == 1
    | IndexOutOfRange(index: int)   // `fft[1+b0]` past the end of the buffer

  datatype Result<T> = Ok(value: T) | Err(fault: Fault)

  function Max(a: int, b: int): (m: int) { if a < b then b else a }
  function Min(a: int, b: int): (m: int) { if a < b then a else b }

  /** `2 ** n`; the lower bound is a helper for the divisions below. */
  function Pow2(n: nat): (r: nat)
    ensures r >= 1
  {
    if n == 0 then 1 else 2 * Pow2(n - 1)
  }

  /** The numerator `2 ** band * 10` of the boundary formula, an exact integer. */
  function Numerator(band: nat): (n: nat) { Pow2(band) * 10 }

  /** The unclamped upper bound `2 ** band * 10. / (lights - 1)`, as an exact rational. */
  function RawBound(lights: int, band: nat): (b1: real)
    requires lights >= 2
    ensures b1 > 0.0
  {
    Numerator(band) as real / (lights - 1) as real
  }

  /**
   The bin at which the cursor stops for an unclamped bound: the ceiling of
   `Numerator(band) / (lights - 1)`.
   */
  function Candidate(lights: int, band: nat): (c: int)
    requires lights >= 2
    ensures c >= 1
  {
    (Numerator(band) + lights - 2) / (lights - 1)
  }

  /** `Candidate` is the integer ceiling of the quotient. */
  lemma CandidateBounds(lights: int, band: nat)
    requires lights >= 2
    ensures (Candidate(lights, band) - 1) * (lights - 1) < Numerator(band)
    ensures Numerator(band) <= Candidate(lights, band) * (lights - 1)
  {
    var n, d, q := Numerator(band), lights - 1, Candidate(lights, band);
    assert q * d + (n + d - 1) % d == n + d - 1;
  }

  /** Cursor after one band, given the cursor `b0` before it. */
  function Next(b0: int, lights: int, band: nat): (next: int)
    requires lights >= 2
    ensures b0 < next
    ensures next == b0 + 1 || next == Min(Candidate(lights, band), LastBin)
    ensures next <= LastBin || next == b0 + 1
  {
    Max(b0 + 1, Min(Candidate(lights, band), LastBin))
  }

  /**
   The cursor `b0` once bands 0 .. band-1 have been consumed. Past the first
   band that would read `fft[1024]` the source raises and runs no further
   band; there `Cursor` is the value the loop would have reached, used only
   to decide that the pass fails.
   */
  function Cursor(lights: int, band: nat): (b0: int)
    requires lights >= 2
    ensures b0 >= band
  {
    if band == 0 then 0 else Next(Cursor(lights, band - 1), lights, band - 1)
  }

  /** The bins lo+1 .. hi, in increasing order. */
  function Span(lo: int, hi: int): (s: seq<int>)
    requires lo <= hi
  {
    seq(hi - lo, k => lo + 1 + k)
  }

  /**
   The running `peak` after scanning the bins lo+1 .. hi from low to high,
   starting from 0: the maximum of 0 and the values scanned.
   */
  function PeakOf(fft: seq<real>, lo: int, hi: int): (peak: real)
    requires 0 <= lo <= hi < |fft|
    ensures 0.0 <= peak
    ensures forall k :: lo < k <= hi ==> fft[k] <= peak
    ensures peak == 0.0 || exists k :: lo < k <= hi && fft[k] == peak
    decreases hi - lo
  {
    if hi == lo then 0.0
    else
      var p := PeakOf(fft, lo, hi - 1);
      if p < fft[hi] then fft[hi] else p
  }

  /** The largest j <= k with j * j <= scaled. */
  function LevelUpTo(scaled: real, k: nat): (r: nat)
    requires scaled >= 0.0
    ensures r <= k && (r * r) as real <= scaled
    ensures r == k || ((r + 1) * (r + 1)) as real > scaled
  {
    if (k * k) as real <= scaled then k else LevelUpTo(scaled, k - 1)
  }

  /**
   `int(min(peak ** .5 * 3 * 100, 100))` in exact arithmetic: the truncation
   of 300 * sqrt(peak), clamped to 100. An integer r <= 300 * sqrt(peak)
   exactly when r * r <= 90000 * peak, so no square root is needed.
   */
  function Level(peak: real): (r: int)
    requires peak >= 0.0
    ensures 0 <= r <= MaxLevel
    ensures (r * r) as real <= 90000.0 * peak
    ensures r == MaxLevel || ((r + 1) * (r + 1)) as real > 90000.0 * peak
  {
    LevelUpTo(90000.0 * peak, MaxLevel)
  }

  /** Intensity of band `band`: the level of the peak over its bins. */
  function BandLevel(fft: seq<real>, lights: int, band: nat): (level: int)
    requires |fft| == FftBins && lights >= 2
    requires Cursor(lights, band + 1) <= LastBin
    ensures 0 <= level <= MaxLevel
  {
    Level(PeakOf(fft, Cursor(lights, band), Cursor(lights, band + 1)))
  }

  /** The intensities of bands 0 .. n-1, in band order. */
  function BandLevels(fft: seq<real>, lights: int, n: nat): (levels: seq<int>)
    requires |fft| == FftBins && lights >= 2
    requires Cursor(lights, n) <= LastBin
    ensures |levels| == n
  {
    if n == 0 then [] else BandLevels(fft, lights, n - 1) + [BandLevel(fft, lights, n - 1)]
  }

  /**
   What one pass of the band loop produces: the band list, or the exception
   it raises. The list is lost when an exception is raised.
   */
  function Analyze(fft: seq<real>, lights: int): (r: Result<seq<int>>)
    requires |fft| == FftBins
    ensures r.Ok? ==> |r.value| == Max(lights, 0)
    ensures r.Err? ==> r.fault == ZeroDivision || r.fault == IndexOutOfRange(FftBins)
    ensures r == Err(ZeroDivision) <==> lights == 1
  {
    if lights <= 0 then Ok([])
    else if lights == 1 then Err(ZeroDivision)
    else if Cursor(lights, lights) > LastBin then Err(IndexOutOfRange(FftBins))
    else Ok(BandLevels(fft, lights, lights))
  }

  lemma ProductSign(a: real, b: real)
    requires a >= 0.0 && b > 0.0
    ensures a * b >= 0.0 && (a > 0.0 ==> a * b > 0.0)
  {}

  /** For a positive divisor, n / d <= y exactly when n <= y * d. */
  lemma QuotientAtMost(n: real, d: real, y: real)
    requires d > 0.0
    ensures (n / d <= y) == (n <= y * d)
  {
    var x := n / d;
    assert x * d == n;
    if x <= y {
      ProductSign(y - x, d);
      assert y * d - x * d == (y - x) * d;
    } else {
      ProductSign(x - y, d);
      assert x * d - y * d == (x - y) * d;
    }
  }

  lemma CastProduct(a: int, b: int)
    ensures (a * b) as real == a as real * b as real
  {}

  /** An integer c with (c - 1) * d < n <= c * d is the ceiling of n / d. */
  lemma CeilingOfQuotient(n: int, d: int, c: int)
    requires d >= 1 && (c - 1) * d < n <= c * d
    ensures (c - 1) as real < n as real / d as real <= c as real
  {
    CastProduct(c - 1, d);
    CastProduct(c, d);
    QuotientAtMost(n as real, d as real, (c - 1) as real);
    QuotientAtMost(n as real, d as real, c as real);
  }

  /** The exact rational bound rounds up to the integer candidate. */
  lemma CandidateIsCeiling(lights: int, band: nat)
    requires lights >= 2
    ensures (Candidate(lights, band) - 1) as real < RawBound(lights, band)
    ensures RawBound(lights, band) <= Candidate(lights, band) as real
  {
    CandidateBounds(lights, band);
    CeilingOfQuotient(Numerator(band), lights - 1, Candidate(lights, band));
  }

  /**
   After the two guards of hueplayer.py:65-68, the cursor walks up to the
   ceiling of the bound, which is `Next`.
   */
  lemma ClampedBoundRoundsToNext(b0: int, lights: int, band: nat, b1: real)
    requires lights >= 2
    requires b1 == (var x := RawBound(lights, band);
                    var y := if x > LastBin as real then LastBin as real else x;
                    if y <= b0 as real then (b0 + 1) as real else y)
    ensures b0 < Next(b0, lights, band)
    ensures (Next(b0, lights, band) - 1) as real < b1 <= Next(b0, lights, band) as real
  {
    CandidateIsCeiling(lights, band);
  }

  /**
   The inner loop of hueplayer.py:69-72: starting from the cursor `b0`, read
   the bins b0+1, b0+2, ... while the cursor is below the bound `b1`, keeping
   the running peak. `stop` is the ceiling of `b1`, where the cursor ends;
   `ok` is false when the read of bin LastBin + 1 (`fft[1024]`) was attempted.
   `read` lists the indices read successfully, in order.
   */
  method ScanBand(fft: seq<real>, b0: int, b1: real, ghost stop: int)
    returns (ok: bool, peak: real, cursor: int, ghost read: seq<int>)
    requires |fft| == FftBins && 0 <= b0 <= LastBin
    requires b0 < stop && (stop - 1) as real < b1 <= stop as real
    ensures ok == (stop <= LastBin)
    ensures ok ==> cursor == stop && peak == PeakOf(fft, b0, stop) && read == Span(b0, stop)
    ensures !ok ==> cursor == LastBin && read == Span(b0, LastBin)
  {
    peak, cursor, read := 0.0, b0, [];
    while (cursor as real) < b1
      invariant b0 <= cursor <= stop && cursor <= LastBin
      invariant peak == PeakOf(fft, b0, cursor)
      invariant read == Span(b0, cursor)
      decreases stop - cursor
    {
      if 1 + cursor >= |fft| {
        return false, peak, cursor, read;
      }
      if peak < fft[1 + cursor] {
        peak := fft[1 + cursor];
      }
      assert Span(b0, cursor) + [1 + cursor] == Span(b0, cursor + 1);
      read := read + [1 + cursor];
      cursor := cursor + 1;
    }
    ok := true;
  }

  /**
   The body of the band loop (hueplayer.py:63-76) for band `band`, with the
   cursor at `b0`: compute the bound, apply the two guards, scan the bins and
   turn the peak into an intensity. `ok` is false when the scan ran past the
   buffer; `read` lists the indices read successfully, in order.
   */
  method ReadBand(fft: seq<real>, lights: int, band: nat, b0: int)
    returns (ok: bool, level: int, next: int, ghost read: seq<int>)
    requires |fft| == FftBins && lights >= 2 && 0 <= b0 <= LastBin
    ensures ok == (Next(b0, lights, band) <= LastBin)
    ensures ok ==> next == Next(b0, lights, band) && read == Span(b0, next)
    ensures ok ==> level == Level(PeakOf(fft, b0, next))
    ensures !ok ==> next == LastBin && read == Span(b0, LastBin)
  {
    var b1: real := RawBound(lights, band);
    if b1 > LastBin as real {
      b1 := LastBin as real;
    }
    if b1 <= b0 as real {
      b1 := (b0 + 1) as real;
    }
    ClampedBoundRoundsToNext(b0, lights, band, b1);
    var peak;
    ok, peak, next, read := ScanBand(fft, b0, b1, Next(b0, lights, band));
    level := if ok then Level(peak) else 0;
  }

  /**
   One pass of the band loop (hueplayer.py:58-76) over a snapshot `fft`.
   `touched` lists the indices of `fft` read successfully, in order.
   */
  method ExtractBands(fft: seq<real>, lights: int) returns (r: Result<seq<int>>, ghost touched: seq<int>)
    requires |fft| == FftBins
    ensures r == Analyze(fft, lights)
    ensures lights <= 1 ==> touched == []
    ensures lights >= 2 && r.Ok? ==> touched == Span(0, Cursor(lights, lights))
    ensures lights >= 2 && r.Err? ==> touched == Span(0, LastBin)
  {
    var b0 := 0;
    var bandList: seq<int> := [];
    touched := [];
    var band := 0;
    while band < lights
      invariant 0 <= band && (lights >= 1 ==> band <= lights)
      invariant band > 0 ==> lights >= 2
      invariant band == 0 ==> b0 == 0
      invariant lights >= 2 ==> b0 == Cursor(lights, band)
      invariant b0 <= LastBin
      invariant lights >= 2 ==> bandList == BandLevels(fft, lights, band)
      invariant 0 <= b0 && touched == Span(0, b0)
    {
      if lights - 1 == 0 {
        r := Err(ZeroDivision);
        return;
      }
      var ok, level, next;
      ghost var read;
      ok, level, next, read := ReadBand(fft, lights, band, b0);
      SpanConcat(0, b0, next);
      touched := touched + read;
      if !ok {
        CursorMonotone(lights, band + 1, lights);
        r := Err(IndexOutOfRange(1 + next));
        return;
      }
      assert BandLevels(fft, lights, band + 1) == bandList + [BandLevel(fft, lights, band)];
      b0 := next;
      bandList := bandList + [level];
      band := band + 1;
    }
    if lights <= 0 {
      r := Ok([]);
    } else {
      r := Ok(bandList);
    }
  }

  lemma SpanConcat(lo: int, mid: int, hi: int)
    requires lo <= mid <= hi
    ensures Span(lo, mid) + Span(mid, hi) == Span(lo, hi)
  {
  }

  // ---------------------------------------------------------------------
  // The band boundaries

  /** The cursor advances by at least one bin per band. */
  lemma {:induction false} CursorMonotone(lights: int, i: nat, j: nat)
    requires lights >= 2 && i <= j
    ensures Cursor(lights, i) + (j - i) <= Cursor(lights, j)
    decreases j - i
  {
    if i < j {
      CursorMonotone(lights, i, j - 1);
    }
  }

  /** Every bin 1 .. Cursor(lights, n) belongs to one of the first n bands. */
  lemma {:induction false} BinHasBand(lights: int, n: nat, k: int)
    requires lights >= 2 && 1 <= k <= Cursor(lights, n)
    ensures exists i :: 0 <= i < n && Cursor(lights, i) < k <= Cursor(lights, i + 1)
  {
    if k <= Cursor(lights, n - 1) {
      BinHasBand(lights, n - 1, k);
    } else {
      assert Cursor(lights, n - 1) < k <= Cursor(lights, n - 1 + 1);
    }
  }

  /** Entry i of the band levels is the intensity of band i. */
  lemma {:induction false} BandLevelsAt(fft: seq<real>, lights: int, n: nat, i: nat)
    requires |fft| == FftBins && lights >= 2
    requires Cursor(lights, n) <= LastBin && i < n
    ensures Cursor(lights, i + 1) <= LastBin
    ensures BandLevels(fft, lights, n)[i] == BandLevel(fft, lights, i)
  {
    if i < n - 1 {
      BandLevelsAt(fft, lights, n - 1, i);
    }
  }

  /** Two different bands share no bin, and bin 0 is in no band. */
  lemma BandsDisjoint(lights: int, i: nat, j: nat, k: int)
    requires lights >= 2
    requires Cursor(lights, i) < k <= Cursor(lights, i + 1)
    requires Cursor(lights, j) < k <= Cursor(lights, j + 1)
    ensures i == j && k >= 1
  {
    if i < j {
      CursorMonotone(lights, i + 1, j);
    } else if j < i {
      CursorMonotone(lights, j + 1, i);
    }
  }

  /** Worked example for four lights: bands read bins 1..4, 5..7, 8..14 and 15..27. */
  lemma FourLightBands()
    ensures Cursor(4, 1) == 4 && Cursor(4, 2) == 7 && Cursor(4, 3) == 14 && Cursor(4, 4) == 27
  {
    assert Candidate(4, 0) == 4 && Candidate(4, 1) == 7;
    assert Candidate(4, 2) == 14 && Candidate(4, 3) == 27;
  }

  /** With at most twelve lights every band's candidate bound lies beyond the previous one. */
  lemma CandidateGrows(lights: int, band: nat)
    requires 2 <= lights <= 12
    ensures Candidate(lights, band) < Candidate(lights, band + 1)
  {
    var n, d := Numerator(band), lights - 1;
    var c, c' := Candidate(lights, band), Candidate(lights, band + 1);
    assert Numerator(band + 1) == 2 * n;
    CandidateBounds(lights, band);
    CandidateBounds(lights, band + 1);
    if band >= 1 {
      assert Pow2(band) == 2 * Pow2(band - 1);
    }
    if d <= n {
      ProductCancel(c, c', d);
    } else {
      assert band == 0 && n == 10 && d == 11;
    }
  }

  lemma ProductCancel(a: int, b: int, d: int)
    requires d >= 1 && a * d < b * d
    ensures a < b
  {
  }

  /** The bound of the second-to-last band stays below the last bin for at most twelve lights. */
  lemma PenultimateCandidateInside(lights: int)
    requires 2 <= lights <= 12
    ensures Candidate(lights, lights - 2) < LastBin
  {
    var k := lights - 2;
    if k <= 5 {
      Pow2Monotone(k, 5);
      assert Pow2(5) == 32;
    } else if k <= 8 {
      Pow2Monotone(k, 8);
      assert Pow2(8) == 256;
    } else {
      Pow2Monotone(k, 10);
      assert Pow2(10) == 1024;
    }
    assert Numerator(k) <= 1022 * (lights - 1);
    var c := Candidate(lights, k);
    CandidateBounds(lights, k);
    if c - 1 >= 1022 {
      ProductAtMost(1022, c - 1, lights - 1);
    }
  }

  lemma {:induction false} Pow2Monotone(i: nat, j: nat)
    requires i <= j
    ensures Pow2(i) <= Pow2(j)
    decreases j - i
  {
    if i < j {
      Pow2Monotone(i, j - 1);
    }
  }

  /**
   With 2 to 12 lights, while the bounds are below the last bin, the cursor
   after a band is that band's candidate bound: the `b1 <= b0` guard never fires.
   */
  lemma {:induction false} CursorFollowsCandidate(lights: int, band: nat)
    requires 2 <= lights <= 12 && 1 <= band
    requires band >= 2 ==> Candidate(lights, band - 2) < LastBin
    ensures Cursor(lights, band) == Min(Candidate(lights, band - 1), LastBin)
  {
    if band == 1 {
      var c := Candidate(lights, 0);
      CandidateBounds(lights, 0);
      if c <= 0 {
        ProductAtMost(c, 0, lights - 1);
      }
    } else {
      if band >= 3 {
        CandidateGrows(lights, band - 3);
      }
      CursorFollowsCandidate(lights, band - 1);
      CandidateGrows(lights, band - 2);
    }
  }

  /** With two to twelve lights the last band ends inside the buffer. */
  lemma SmallCountsStayInBuffer(lights: int)
    requires 2 <= lights <= 12
    ensures Cursor(lights, lights) <= LastBin
  {
    PenultimateCandidateInside(lights);
    CursorFollowsCandidate(lights, lights);
  }

  /** From thirteen lights on, 2^(lights-2) * 10 outgrows 1022 * (lights - 1). */
  lemma {:induction false} NumeratorOutgrows(lights: int)
    requires lights >= 13
    ensures Numerator(lights - 2) > 1022 * (lights - 1)
    decreases lights
  {
    if lights == 13 {
      assert Pow2(11) == 2048;
    } else {
      NumeratorOutgrows(lights - 1);
      assert Pow2(lights - 2) == 2 * Pow2(lights - 3);
    }
  }

  lemma ProductAtMost(a: int, b: int, d: int)
    requires a <= b && d >= 1
    ensures a * d <= b * d
  {}

  /**
   From thirteen lights on, band lights-2 ends at the last bin or beyond, so
   the cursor the loop would reach after all bands is past the buffer. In the
   source the first band that starts at bin 1023 hits the guard
   `b1 = b0 + 1` and reads `fft[1024]`: for thirteen lights that is the last
   band, for more lights an earlier one, and the later bands never run.
   */
  lemma LargeCountsOverrun(lights: int)
    requires lights >= 13
    ensures Cursor(lights, lights - 1) >= LastBin
    ensures Cursor(lights, lights) > LastBin
  {
    var c := Candidate(lights, lights - 2);
    NumeratorOutgrows(lights);
    CandidateBounds(lights, lights - 2);
    if c <= 1022 {
      ProductAtMost(c, 1022, lights - 1);
    }
    assert Cursor(lights, lights - 1) == Next(Cursor(lights, lights - 2), lights, lights - 2);
  }

  // ---------------------------------------------------------------------
  // What a pass of the band loop returns

  /**
   The pass fails exactly for one light (division by zero) and for thirteen
   lights or more (a read of `fft[1024]`); otherwise it returns a band list.
   */
  lemma AnalyzeOutcome(fft: seq<real>, lights: int)
    requires |fft| == FftBins
    ensures Analyze(fft, lights) == Err(ZeroDivision) <==> lights == 1
    ensures Analyze(fft, lights) == Err(IndexOutOfRange(FftBins)) <==> lights >= 13
    ensures Analyze(fft, lights).Ok? <==> lights <= 0 || 2 <= lights <= 12
  {
    if 2 <= lights <= 12 {
      SmallCountsStayInBuffer(lights);
    } else if lights >= 13 {
      LargeCountsOverrun(lights);
    }
  }

  /**
   A band list has one entry per light, in band order; entry i is the level
   of the peak over the bins of band i, and lies in [0, 100].
   */
  lemma AnalyzeBands(fft: seq<real>, lights: int, i: int)
    requires |fft| == FftBins && Analyze(fft, lights).Ok?
    requires 0 <= i < |Analyze(fft, lights).value|
    ensures |Analyze(fft, lights).value| == lights
    ensures Cursor(lights, i + 1) <= LastBin
    ensures Analyze(fft, lights).value[i]
      == Level(PeakOf(fft, Cursor(lights, i), Cursor(lights, i + 1)))
    ensures 0 <= Analyze(fft, lights).value[i] <= MaxLevel
  {
    BandLevelsAt(fft, lights, lights, i);
  }

  lemma SquareMonotone(x: int, y: int)
    requires 0 <= x <= y
    ensures x * x <= y * y
  {
    if x >= 1 {
      ProductAtMost(x, y, x);
      ProductAtMost(x, y, y);
    }
  }

  /** A higher peak never gives a lower intensity. */
  lemma LevelMonotone(p: real, q: real)
    requires 0.0 <= p <= q
    ensures Level(p) <= Level(q)
  {
    var a, b := Level(p), Level(q);
    if a > b {
      SquareMonotone(b + 1, a);
    }
  }

  /** With 2 to 12 lights, a snapshot with no positive magnitude gives intensity 0 in every band. */
  lemma SilentSnapshot(fft: seq<real>, lights: int)
    requires |fft| == FftBins && 2 <= lights <= 12
    requires forall k :: 1 <= k < |fft| ==> fft[k] <= 0.0
    ensures Analyze(fft, lights).Ok?
    ensures forall i :: 0 <= i < lights ==> Analyze(fft, lights).value[i] == 0
  {
    AnalyzeOutcome(fft, lights);
    forall i | 0 <= i < lights
      ensures Analyze(fft, lights).value[i] == 0
    {
      AnalyzeBands(fft, lights, i);
      var peak := PeakOf(fft, Cursor(lights, i), Cursor(lights, i + 1));
      assert peak == 0.0;
      var r := Level(peak);
      if r >= 1 {
        SquareMonotone(1, r);
      }
    }
  }

  /**
   With 2 to 12 lights, a snapshot whose bins 1 .. 1023 all reach 1/9
   (where 300 * sqrt(peak) reaches 100) gives intensity 100 in every band.
   */
  lemma LoudSnapshot(fft: seq<real>, lights: int)
    requires |fft| == FftBins && 2 <= lights <= 12
    requires forall k :: 1 <= k < |fft| ==> fft[k] >= 1.0 / 9.0
    ensures Analyze(fft, lights).Ok?
    ensures forall i :: 0 <= i < lights ==> Analyze(fft, lights).value[i] == MaxLevel
  {
    AnalyzeOutcome(fft, lights);
    forall i | 0 <= i < lights
      ensures Analyze(fft, lights).value[i] == MaxLevel
    {
      AnalyzeBands(fft, lights, i);
      var lo, hi := Cursor(lights, i), Cursor(lights, i + 1);
      assert lo < hi;
      var peak := PeakOf(fft, lo, hi);
      assert fft[hi] <= peak;
      var r := Level(peak);
      if r < MaxLevel {
        SquareMonotone(r + 1, MaxLevel);
      }
    }
  }
}
