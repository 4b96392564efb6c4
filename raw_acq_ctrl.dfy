/** The raw (non-averaged) acquisition controller of the ATS9371 digitizer.

    The controller owns three session buffers: a flat raw buffer into which
    every delivered DMA buffer is added, and two `records × samples` arrays of
    volts, one per channel. The raw stream is interleaved `[A, B, A, B, ...]`
    record after record, and two converters (a loop kernel and a reshape-based
    vectorised path) split it into the channel arrays. The converters agree
    whenever there is at least one record; with none, the reshape-based path
    fails.

    Raw codes are exact integers and volts are exact reals: floating point is
    not modelled. */
module RawAcqCtrl {
  import opened Wrappers
  import opened Arith

  /** ADC code that reads as 0 V (codes are pre-shifted into the 16-bit domain). */
  const OffsetCode: int := 32760
  /** Codes per volt: 16 codes per step, 4095 steps over 0.8 V. */
  const ScaleDivisor: real := 81900.0

  /** Position of each channel inside one interleaved `[A, B]` pair. */
  const ChannelA: nat := 0
  const ChannelB: nat := 1

  /** Why a converter fails: it ran before `pre_start_capture` created the
      buffers, or numpy cannot infer the `-1` dimension of
      `reshape(records, -1, 2)`. */
  datatype ConversionError = NoCapture | ReshapeSizeMismatch(size: nat, records: nat)

  // ---------------------------------------------------------------------------
  // Voltage conversion

  /** `signal_to_volt`, also the per-sample expression of `process_buffer`. */
  function SignalToVolt(signal: int): real
  {
    (signal - OffsetCode) as real / ScaleDivisor
  }

  /** The offset code is 0 V, the conversion is strictly increasing, and the
      code can be recovered from the volt value. */
  lemma SignalToVoltCalibration(c: int, d: int)
    ensures SignalToVolt(OffsetCode) == 0.0
    ensures c < d <==> SignalToVolt(c) < SignalToVolt(d)
    ensures SignalToVolt(c) * ScaleDivisor + OffsetCode as real == c as real
  {
  }

  // ---------------------------------------------------------------------------
  // Index arithmetic of the interleaved raw buffer

  /** Raw position of channel `ch`, record `r`, sample `s`: the `i` (channel A)
      and `i + 1` (channel B) of `process_buffer`. */
  function RawIndex(r: nat, s: nat, ch: nat, samples: nat): nat
  {
    (r * samples + s) * 2 + ch
  }

  /** Every cell's raw position lies inside the raw buffer. */
  lemma RawIndexInBounds(r: nat, s: nat, ch: nat, records: nat, samples: nat)
    requires r < records && s < samples && ch < 2
    ensures RawIndex(r, s, ch, samples) < records * samples * 2
  {
    MulLeft(r + 1, records, samples);
  }

  /** Distinct cells have distinct raw positions: the raw position determines
      the record, the sample and the channel. */
  lemma RawIndexInjective(r1: nat, s1: nat, c1: nat, r2: nat, s2: nat, c2: nat, samples: nat)
    requires s1 < samples && s2 < samples && c1 < 2 && c2 < 2
    requires RawIndex(r1, s1, c1, samples) == RawIndex(r2, s2, c2, samples)
    ensures r1 == r2 && s1 == s2 && c1 == c2
  {
    DivModUnique(r1 * samples + s1, c1, r2 * samples + s2, c2, 2);
    DivModUnique(r1, s1, r2, s2, samples);
  }

  /** Every position of the raw buffer is the raw position of some cell, so,
      with `RawIndexInjective` and `RawIndexInBounds`, the map
      `(r, s, ch) ↦ (r * samples + s) * 2 + ch` is a bijection from the cells of
      the two channels onto the raw buffer. */
  lemma RawIndexSurjective(i: nat, records: nat, samples: nat) returns (r: nat, s: nat, ch: nat)
    requires i < records * samples * 2
    ensures r < records && s < samples && ch < 2
    ensures RawIndex(r, s, ch, samples) == i
  {
    var n := records * samples;
    var p := i / 2;
    ch := i % 2;
    assert p < n;
    assert samples > 0;
    r, s := p / samples, p % samples;
    assert p == r * samples + s;
    if records <= r {
      MulLeft(records, r, samples);
      assert false;
    }
  }

  // ---------------------------------------------------------------------------
  // What the converters compute

  /** One channel of the raw buffer in volts: row `r` is record `r`, and cell
      `[r][s]` is the converted code at raw position `RawIndex(r, s, ch)`. */
  function ChannelVolts(raw: seq<int>, records: nat, samples: nat, ch: nat): seq<seq<real>>
    requires |raw| == records * samples * 2 && ch < 2
  {
    seq(records, r requires 0 <= r < records =>
      seq(samples, s requires 0 <= s < samples =>
        RawIndexInBounds(r, s, ch, records, samples);
        SignalToVolt(raw[RawIndex(r, s, ch, samples)])))
  }

  /** Flat position of element `[r, m, ch]` of `raw.reshape(records, width, 2)`
      (row-major order). */
  function ReshapeIndex(r: nat, m: nat, ch: nat, width: nat): nat
  {
    r * (width * 2) + m * 2 + ch
  }

  /** The reshape view reads the raw position the loop kernel reads. */
  lemma ReshapeIndexIsRawIndex(r: nat, m: nat, ch: nat, width: nat)
    ensures ReshapeIndex(r, m, ch, width) == RawIndex(r, m, ch, width)
  {
    assert r * (width * 2) == (r * width) * 2;
  }

  /** `np.subtract(raw.reshape(records, width, 2)[:, :, ch], 32760)`. */
  function ShiftedChannel(raw: seq<int>, records: nat, width: nat, ch: nat): seq<seq<real>>
    requires |raw| == records * width * 2 && ch < 2
  {
    seq(records, r requires 0 <= r < records =>
      seq(width, m requires 0 <= m < width =>
        ReshapeIndexIsRawIndex(r, m, ch, width);
        RawIndexInBounds(r, m, ch, records, width);
        (raw[ReshapeIndex(r, m, ch, width)] - OffsetCode) as real))
  }

  /** Every cell divided by `d` (numpy's in-place `/=`). */
  function Divided(m: seq<seq<real>>, d: real): seq<seq<real>>
    requires d != 0.0
  {
    seq(|m|, r requires 0 <= r < |m| => seq(|m[r]|, s requires 0 <= s < |m[r]| => m[r][s] / d))
  }

  /** When `records * 2` divides the size, the inferred `-1` dimension fills
      the buffer exactly. */
  lemma SizeOfReshape(size: nat, records: nat)
    requires records > 0 && size % (records * 2) == 0
    ensures size == records * (size / (records * 2)) * 2
  {
    var w := size / (records * 2);
    assert size == (records * 2) * w;
    assert (records * 2) * w == records * w * 2;
  }

  /** The reshape-based converter for one channel: `reshape(records, -1, 2)`,
      select `ch`, subtract the offset, divide by the scale. numpy refuses the
      reshape when the known dimensions multiply to 0 or do not divide the size. */
  function ReshapedChannelVolts(raw: seq<int>, records: nat, ch: nat): Result<seq<seq<real>>, ConversionError>
    requires ch < 2
  {
    if records == 0 || |raw| % (records * 2) != 0 then
      Failure(ReshapeSizeMismatch(|raw|, records))
    else
      SizeOfReshape(|raw|, records);
      Success(Divided(ShiftedChannel(raw, records, |raw| / (records * 2), ch), ScaleDivisor))
  }

  /** For the session's geometry, numpy infers `samples` for the `-1`. */
  lemma ExactQuotient(records: nat, samples: nat)
    requires records > 0
    ensures (records * samples * 2) % (records * 2) == 0
    ensures (records * samples * 2) / (records * 2) == samples
  {
    assert records * samples * 2 == samples * (records * 2);
    DivOfMultiple(samples, records * 2);
  }

  /** The reshape-based converter and the loop kernel agree on every raw buffer
      of the session's geometry whenever there is at least one record; with no
      records the reshape-based converter fails. */
  lemma ReshapeAgreesWithLoop(raw: seq<int>, records: nat, samples: nat, ch: nat)
    requires |raw| == records * samples * 2 && ch < 2
    ensures records == 0 ==> ReshapedChannelVolts(raw, records, ch).Failure?
    ensures records > 0 ==> ReshapedChannelVolts(raw, records, ch) == Success(ChannelVolts(raw, records, samples, ch))
  {
    if records > 0 {
      ExactQuotient(records, samples);
      var lhs := Divided(ShiftedChannel(raw, records, samples, ch), ScaleDivisor);
      var rhs := ChannelVolts(raw, records, samples, ch);
      forall r | 0 <= r < records
        ensures lhs[r] == rhs[r]
      {
        forall s | 0 <= s < samples
          ensures lhs[r][s] == rhs[r][s]
        {
          ReshapeIndexIsRawIndex(r, s, ch, samples);
        }
      }
      assert lhs == rhs;
      assert ReshapedChannelVolts(raw, records, ch) == Success(lhs);
    }
  }

  // ---------------------------------------------------------------------------
  // Accumulation of delivered buffers

  /** Element-wise sum (numpy's `+=` on equal shapes). */
  function Added(acc: seq<int>, delivered: seq<int>): seq<int>
    requires |acc| == |delivered|
  {
    seq(|acc|, k requires 0 <= k < |acc| => acc[k] + delivered[k])
  }

  /** Every delivery has length `n`. */
  ghost predicate AllOfLength(deliveries: seq<seq<int>>, n: nat)
  {
    forall j :: 0 <= j < |deliveries| ==> |deliveries[j]| == n
  }

  /** The raw buffer after `handle_buffer` has been called with each delivery
      in turn, starting from `start`. */
  ghost function Accumulated(start: seq<int>, deliveries: seq<seq<int>>): (acc: seq<int>)
    requires AllOfLength(deliveries, |start|)
    ensures |acc| == |start|
    decreases |deliveries|
  {
    if deliveries == [] then start
    else Accumulated(Added(start, deliveries[0]), deliveries[1..])
  }

  /** Sum of element `k` over all deliveries. */
  ghost function SumAt(deliveries: seq<seq<int>>, k: nat): int
    requires forall j :: 0 <= j < |deliveries| ==> k < |deliveries[j]|
    decreases |deliveries|
  {
    if deliveries == [] then 0 else deliveries[0][k] + SumAt(deliveries[1..], k)
  }

  /** Element `k` of the accumulated buffer is its start value plus the sum
      of element `k` of every delivery. */
  lemma {:induction false} AccumulatedAt(start: seq<int>, deliveries: seq<seq<int>>, k: nat)
    requires AllOfLength(deliveries, |start|) && k < |start|
    ensures Accumulated(start, deliveries)[k] == start[k] + SumAt(deliveries, k)
    decreases |deliveries|
  {
    if deliveries != [] {
      AccumulatedAt(Added(start, deliveries[0]), deliveries[1..], k);
    }
  }

  /** Sums over consecutive blocks of deliveries add up. */
  lemma {:induction false} SumAtAppend(a: seq<seq<int>>, b: seq<seq<int>>, k: nat)
    requires forall j :: 0 <= j < |a| ==> k < |a[j]|
    requires forall j :: 0 <= j < |b| ==> k < |b[j]|
    ensures SumAt(a + b, k) == SumAt(a, k) + SumAt(b, k)
    decreases |a|
  {
    if a == [] {
      assert a + b == b;
    } else {
      assert (a + b)[0] == a[0];
      assert (a + b)[1..] == a[1..] + b;
      SumAtAppend(a[1..], b, k);
    }
  }

  /** The sum over two deliveries. */
  lemma SumAtPair(x: seq<int>, y: seq<int>, k: nat)
    requires k < |x| && k < |y|
    ensures SumAt([x, y], k) == x[k] + y[k]
  {
    assert [y][1..] == [];
    assert SumAt([y], k) == y[k] + SumAt([], k);
    assert [x, y][1..] == [y];
    assert SumAt([x, y], k) == x[k] + SumAt([y], k);
  }

  /** Accumulation does not depend on the order of delivery: delivering a
      block `q` of buffers before a block `p` leaves the same raw buffer as
      delivering `p` first. */
  lemma AccumulationSwapBlocks(start: seq<int>, p: seq<seq<int>>, q: seq<seq<int>>)
    requires AllOfLength(p, |start|) && AllOfLength(q, |start|)
    ensures Accumulated(start, p + q) == Accumulated(start, q + p)
  {
    forall k | 0 <= k < |start|
      ensures Accumulated(start, p + q)[k] == Accumulated(start, q + p)[k]
    {
      AccumulatedAt(start, p + q, k);
      AccumulatedAt(start, q + p, k);
      SumAtAppend(p, q, k);
      SumAtAppend(q, p, k);
    }
  }

  /** Swapping two neighbouring deliveries keeps every element's sum. */
  lemma SumAtSwapNeighbours(p: seq<seq<int>>, x: seq<int>, y: seq<int>, q: seq<seq<int>>, k: nat)
    requires forall j :: 0 <= j < |p| ==> k < |p[j]|
    requires forall j :: 0 <= j < |q| ==> k < |q[j]|
    requires k < |x| && k < |y|
    ensures SumAt(p + [x, y] + q, k) == SumAt(p + [y, x] + q, k)
  {
    SumAtAppend(p + [x, y], q, k);
    SumAtAppend(p + [y, x], q, k);
    SumAtAppend(p, [x, y], k);
    SumAtAppend(p, [y, x], k);
    SumAtPair(x, y, k);
    SumAtPair(y, x, k);
  }

  /** Swapping two neighbouring deliveries anywhere in the sequence leaves the
      same raw buffer, so every reordering of the deliveries does. */
  lemma AccumulationSwapNeighbours(start: seq<int>, p: seq<seq<int>>, x: seq<int>, y: seq<int>, q: seq<seq<int>>)
    requires AllOfLength(p, |start|) && AllOfLength(q, |start|)
    requires |x| == |start| && |y| == |start|
    ensures Accumulated(start, p + [x, y] + q) == Accumulated(start, p + [y, x] + q)
  {
    var u, v := p + [x, y] + q, p + [y, x] + q;
    SpliceOfLength(p, [x, y], q, |start|);
    SpliceOfLength(p, [y, x], q, |start|);
    AccumulatedSwapPointwise(start, u, v, p, x, y, q);
  }

  /** Splicing a block of rows of length `n` between two such lists keeps every row of length `n`. */
  lemma SpliceOfLength(p: seq<seq<int>>, m: seq<seq<int>>, q: seq<seq<int>>, n: nat)
    requires AllOfLength(p, n) && AllOfLength(m, n) && AllOfLength(q, n)
    ensures AllOfLength(p + m + q, n)
  {
  }

  /** The pointwise step of `AccumulationSwapNeighbours`. */
  lemma AccumulatedSwapPointwise(start: seq<int>, u: seq<seq<int>>, v: seq<seq<int>>,
                                 p: seq<seq<int>>, x: seq<int>, y: seq<int>, q: seq<seq<int>>)
    requires AllOfLength(p, |start|) && AllOfLength(q, |start|)
    requires |x| == |start| && |y| == |start|
    requires u == p + [x, y] + q && v == p + [y, x] + q
    requires AllOfLength(u, |start|) && AllOfLength(v, |start|)
    ensures Accumulated(start, u) == Accumulated(start, v)
  {
    forall k | 0 <= k < |start|
      ensures Accumulated(start, u)[k] == Accumulated(start, v)[k]
    {
      AccumulatedAt(start, u, k);
      AccumulatedAt(start, v, k);
      SumAtSwapNeighbours(p, x, y, q, k);
    }
  }

  /** Removing the delivery at position `i` removes one copy of it from the
      multiset of deliveries. */
  lemma MultisetWithout<T>(q: seq<T>, i: nat)
    requires i < |q|
    ensures multiset(q[..i] + q[i + 1..]) == multiset(q) - multiset{q[i]}
  {
    assert q == q[..i] + [q[i]] + q[i + 1..];
    assert multiset(q) == multiset(q[..i]) + multiset{q[i]} + multiset(q[i + 1..]);
  }

  /** Element `k` summed over the deliveries is the delivery at position `i`
      plus the sum over the others. */
  lemma SumAtWithout(q: seq<seq<int>>, i: nat, rest: seq<seq<int>>, k: nat)
    requires i < |q| && forall j :: 0 <= j < |q| ==> k < |q[j]|
    requires rest == q[..i] + q[i + 1..]
    ensures forall j :: 0 <= j < |rest| ==> k < |rest[j]|
    ensures SumAt(q, k) == q[i][k] + SumAt(rest, k)
  {
    var before, after := q[..i], q[i + 1..];
    assert q == before + [q[i]] + after;
    SumAtAppend(before + [q[i]], after, k);
    SumAtAppend(before, [q[i]], k);
    SumAtAppend(before, after, k);
    assert SumAt([q[i]], k) == q[i][k] + SumAt([], k) by {
      assert [q[i]][1..] == [];
    }
  }

  /** The first element of `p` sits at some position `i` of a permutation
      `q`, and the rest of `p` is a permutation of `q` without position `i`. */
  lemma MatchFirst<T>(p: seq<T>, q: seq<T>) returns (i: nat, rest: seq<T>)
    requires p != [] && multiset(p) == multiset(q)
    ensures i < |q| && q[i] == p[0]
    ensures rest == q[..i] + q[i + 1..] && multiset(p[1..]) == multiset(rest)
  {
    assert p[0] in multiset(q);
    i :| 0 <= i < |q| && q[i] == p[0];
    rest := q[..i] + q[i + 1..];
    MultisetWithout(q, i);
    MultisetTail(p);
  }

  /** Dropping the first element removes one copy of it. */
  lemma MultisetTail<T>(p: seq<T>)
    requires p != []
    ensures multiset(p[1..]) == multiset(p) - multiset{p[0]}
  {
    assert p == [p[0]] + p[1..];
  }

  /** Element sums do not depend on the order of the deliveries. */
  lemma {:induction false} SumAtPermutation(p: seq<seq<int>>, q: seq<seq<int>>, k: nat)
    requires forall j :: 0 <= j < |p| ==> k < |p[j]|
    requires forall j :: 0 <= j < |q| ==> k < |q[j]|
    requires multiset(p) == multiset(q)
    ensures SumAt(p, k) == SumAt(q, k)
    decreases |p|
  {
    if p == [] {
      assert |q| == |multiset(q)| == 0;
    } else {
      var i, rest := MatchFirst(p, q);
      SumAtWithout(q, i, rest, k);
      SumAtPermutation(p[1..], rest, k);
    }
  }

  /** Any reordering of the deliveries leaves the same raw buffer. */
  lemma AccumulationPermutation(start: seq<int>, p: seq<seq<int>>, q: seq<seq<int>>)
    requires AllOfLength(p, |start|) && multiset(p) == multiset(q)
    ensures AllOfLength(q, |start|)
    ensures Accumulated(start, p) == Accumulated(start, q)
  {
    forall j | 0 <= j < |q|
      ensures |q[j]| == |start|
    {
      assert q[j] in multiset(p);
    }
    forall k | 0 <= k < |start|
      ensures Accumulated(start, p)[k] == Accumulated(start, q)[k]
    {
      AccumulatedAt(start, p, k);
      AccumulatedAt(start, q, k);
      SumAtPermutation(p, q, k);
    }
  }

  /** Delivering the same buffer twice into a zero-filled raw buffer leaves
      twice that buffer, element by element. */
  lemma DeliveringTwiceDoubles(delivered: seq<int>)
    ensures Accumulated(seq(|delivered|, _ => 0), [delivered, delivered])
         == seq(|delivered|, k requires 0 <= k < |delivered| => 2 * delivered[k])
  {
    var zero := seq(|delivered|, _ => 0);
    forall k | 0 <= k < |delivered|
      ensures Accumulated(zero, [delivered, delivered])[k] == 2 * delivered[k]
    {
      AccumulatedAt(zero, [delivered, delivered], k);
      SumAtPair(delivered, delivered, k);
    }
  }

  // ---------------------------------------------------------------------------
  // The loop kernel

  /** Cells of a 2-D array as a sequence of rows. */
  function Rows(a: array2<real>): seq<seq<real>>
    reads a
  {
    seq(a.Length0, r requires 0 <= r < a.Length0 reads a =>
      seq(a.Length1, s requires 0 <= s < a.Length1 reads a => a[r, s]))
  }

  /** `process_buffer`: for each record and sample, writes the converted
      channel-A and channel-B codes into `chaA[r, s]` and `chaB[r, s]`; no
      other cell changes, and the raw buffer is only read. */
  method ProcessBuffer(buffer: array<int>, chaA: array2<real>, chaB: array2<real>, nRecords: nat, nSamples: nat)
    requires nRecords * nSamples * 2 <= buffer.Length
    requires nRecords <= chaA.Length0 && nSamples <= chaA.Length1
    requires nRecords <= chaB.Length0 && nSamples <= chaB.Length1
    requires chaA != chaB
    modifies chaA, chaB
    ensures forall r, s :: 0 <= r < nRecords && 0 <= s < nSamples ==>
      chaA[r, s] == ChannelVolts(buffer[..nRecords * nSamples * 2], nRecords, nSamples, ChannelA)[r][s] &&
      chaB[r, s] == ChannelVolts(buffer[..nRecords * nSamples * 2], nRecords, nSamples, ChannelB)[r][s]
    ensures forall r, s ::
      0 <= r < chaA.Length0 && 0 <= s < chaA.Length1 && !(r < nRecords && s < nSamples) ==> chaA[r, s] == old(chaA[r, s])
    ensures forall r, s ::
      0 <= r < chaB.Length0 && 0 <= s < chaB.Length1 && !(r < nRecords && s < nSamples) ==> chaB[r, s] == old(chaB[r, s])
  {
    ghost var raw := buffer[..nRecords * nSamples * 2];
    ghost var voltsA := ChannelVolts(raw, nRecords, nSamples, ChannelA);
    ghost var voltsB := ChannelVolts(raw, nRecords, nSamples, ChannelB);
    for r := 0 to nRecords
      invariant forall r', s :: 0 <= r' < r && 0 <= s < nSamples ==>
        chaA[r', s] == voltsA[r'][s] && chaB[r', s] == voltsB[r'][s]
      invariant forall r', s ::
        0 <= r' < chaA.Length0 && 0 <= s < chaA.Length1 && !(r' < r && s < nSamples) ==> chaA[r', s] == old(chaA[r', s])
      invariant forall r', s ::
        0 <= r' < chaB.Length0 && 0 <= s < chaB.Length1 && !(r' < r && s < nSamples) ==> chaB[r', s] == old(chaB[r', s])
    {
      for s := 0 to nSamples
        invariant forall r', s' :: 0 <= r' < r && 0 <= s' < nSamples ==>
          chaA[r', s'] == voltsA[r'][s'] && chaB[r', s'] == voltsB[r'][s']
        invariant forall s' :: 0 <= s' < s ==> chaA[r, s'] == voltsA[r][s'] && chaB[r, s'] == voltsB[r][s']
        invariant forall r', s' ::
          (0 <= r' < chaA.Length0 && 0 <= s' < chaA.Length1 && !(r' < r && s' < nSamples) && !(r' == r && s' < s))
          ==> chaA[r', s'] == old(chaA[r', s'])
        invariant forall r', s' ::
          (0 <= r' < chaB.Length0 && 0 <= s' < chaB.Length1 && !(r' < r && s' < nSamples) && !(r' == r && s' < s))
          ==> chaB[r', s'] == old(chaB[r', s'])
      {
        var i := (r * nSamples + s) * 2;
        RawIndexInBounds(r, s, ChannelB, nRecords, nSamples);
        chaA[r, s] := (buffer[i] - 32760) as real / 81900.0;
        chaB[r, s] := (buffer[i + 1] - 32760) as real / 81900.0;
      }
    }
  }

  // ---------------------------------------------------------------------------
  // Steps of the reshape-based converter

  /** `np.subtract(raw.reshape(records, width, 2)[:, :, ch], 32760, out=out)`. */
  method SubtractOffsetInto(raw: array<int>, records: nat, width: nat, ch: nat, out: array2<real>)
    requires raw.Length == records * width * 2 && ch < 2
    requires out.Length0 == records && out.Length1 == width
    modifies out
    ensures Rows(out) == ShiftedChannel(raw[..], records, width, ch)
  {
    for r := 0 to records
      invariant forall r', m :: 0 <= r' < r && 0 <= m < width ==>
        out[r', m] == ShiftedChannel(raw[..], records, width, ch)[r'][m]
    {
      for m := 0 to width
        invariant forall r', m' :: 0 <= r' < r && 0 <= m' < width ==>
          out[r', m'] == ShiftedChannel(raw[..], records, width, ch)[r'][m']
        invariant forall m' :: 0 <= m' < m ==> out[r, m'] == ShiftedChannel(raw[..], records, width, ch)[r][m']
      {
        ReshapeIndexIsRawIndex(r, m, ch, width);
        RawIndexInBounds(r, m, ch, records, width);
        out[r, m] := (raw[r * (width * 2) + m * 2 + ch] - OffsetCode) as real;
      }
    }
    RowsAre(out, ShiftedChannel(raw[..], records, width, ch));
  }

  /** numpy's in-place `out /= d`. */
  method DivideInPlace(out: array2<real>, d: real)
    requires d != 0.0
    modifies out
    ensures Rows(out) == Divided(old(Rows(out)), d)
  {
    ghost var before := Rows(out);
    for r := 0 to out.Length0
      invariant forall r', s :: 0 <= r' < r && 0 <= s < out.Length1 ==> out[r', s] == before[r'][s] / d
      invariant forall r', s :: r <= r' < out.Length0 && 0 <= s < out.Length1 ==> out[r', s] == before[r'][s]
    {
      for s := 0 to out.Length1
        invariant forall r', s' :: 0 <= r' < r && 0 <= s' < out.Length1 ==> out[r', s'] == before[r'][s'] / d
        invariant forall s' :: 0 <= s' < s ==> out[r, s'] == before[r][s'] / d
        invariant forall r', s' :: r <= r' < out.Length0 && 0 <= s' < out.Length1 && !(r' == r && s' < s) ==>
          out[r', s'] == before[r'][s']
      {
        out[r, s] := out[r, s] / d;
      }
    }
    RowsAre(out, Divided(before, d));
  }

  /** An array whose cells match `m` cell by cell has rows `m`. */
  lemma RowsAre(a: array2<real>, m: seq<seq<real>>)
    requires |m| == a.Length0 && forall r :: 0 <= r < |m| ==> |m[r]| == a.Length1
    requires forall r, s :: 0 <= r < a.Length0 && 0 <= s < a.Length1 ==> a[r, s] == m[r][s]
    ensures Rows(a) == m
  {
    forall r | 0 <= r < a.Length0
      ensures Rows(a)[r] == m[r]
    {
    }
  }

  /** `np.zeros(n)`: a fresh raw buffer of zeros. */
  method ZeroFilled(n: nat) returns (raw: array<int>)
    ensures fresh(raw) && raw.Length == n && raw[..] == seq(n, _ => 0)
  {
    raw := new int[n](_ => 0);
    assert raw[..] == seq(n, _ => 0);
  }

  /** `np.zeros((records, samples))`: a fresh channel array of zeros. */
  method ZeroChannel(records: nat, samples: nat) returns (a: array2<real>)
    ensures fresh(a) && a.Length0 == records && a.Length1 == samples
    ensures forall r, s :: 0 <= r < records && 0 <= s < samples ==> a[r, s] == 0.0
  {
    a := new real[records, samples]((_, _) => 0.0);
  }

  /** numpy's `.copy()`: a fresh array with the same cells. */
  method CopyOf(src: array2<real>) returns (dst: array2<real>)
    ensures fresh(dst) && dst.Length0 == src.Length0 && dst.Length1 == src.Length1
    ensures Rows(dst) == Rows(src)
  {
    dst := new real[src.Length0, src.Length1];
    for r := 0 to src.Length0
      invariant forall r', s :: 0 <= r' < r && 0 <= s < src.Length1 ==> dst[r', s] == src[r', s]
    {
      for s := 0 to src.Length1
        invariant forall r', s' :: 0 <= r' < r && 0 <= s' < src.Length1 ==> dst[r', s'] == src[r', s']
        invariant forall s' :: 0 <= s' < s ==> dst[r, s'] == src[r, s']
      {
        dst[r, s] := src[r, s];
      }
    }
    RowsAre(dst, Rows(src));
  }

  /** The body of the reshape-based converter for at least one record:
      `reshape(records, -1, 2)` infers `samples` for the `-1`, and each channel
      is shifted into its array and divided there. The result is what the
      loop kernel writes. */
  method ReshapeConvert(buffer: array<int>, records: nat, samples: nat, chaA: array2<real>, chaB: array2<real>)
    requires records > 0 && buffer.Length == samples * records * 2
    requires chaA.Length0 == records && chaA.Length1 == samples
    requires chaB.Length0 == records && chaB.Length1 == samples
    requires chaA != chaB
    modifies chaA, chaB
    ensures ReshapedChannelVolts(buffer[..], records, ChannelA) == Success(Rows(chaA))
    ensures ReshapedChannelVolts(buffer[..], records, ChannelB) == Success(Rows(chaB))
    ensures Rows(chaA) == ChannelVolts(buffer[..], records, samples, ChannelA)
    ensures Rows(chaB) == ChannelVolts(buffer[..], records, samples, ChannelB)
  {
    assert buffer.Length == records * samples * 2;
    ExactQuotient(records, samples);
    var width := buffer.Length / (records * 2);
    assert width == samples;
    SubtractOffsetInto(buffer, records, width, ChannelA, chaA);
    DivideInPlace(chaA, ScaleDivisor);
    SubtractOffsetInto(buffer, records, width, ChannelB, chaB);
    DivideInPlace(chaB, ScaleDivisor);
    ReshapeAgreesWithLoop(buffer[..], records, samples, ChannelA);
    ReshapeAgreesWithLoop(buffer[..], records, samples, ChannelB);
  }

  // ---------------------------------------------------------------------------
  // The session

  /** `RawAcquisitionController`: the geometry read from the board at
      `pre_start_capture`, the accumulated raw buffer (absent before the first
      capture) and the two channel arrays the converters write. */
  class RawAcquisitionController {
    var samplesPerRecord: nat
    var recordsPerBuffer: nat
    var buffersPerAcquisition: nat
    const numberOfChannels: nat := 2
    var buffer: array?<int>
    var chaABuffer: array2?<real>
    var chaBBuffer: array2?<real>

    /** Once the raw buffer exists, it and the channel arrays have the sizes
        the geometry gives them, and the two channel arrays are distinct. */
    ghost predicate Valid()
      reads this
    {
      buffer != null ==>
        && chaABuffer != null && chaBBuffer != null && chaABuffer != chaBBuffer
        && buffer.Length == samplesPerRecord * recordsPerBuffer * numberOfChannels
        && chaABuffer.Length0 == recordsPerBuffer && chaABuffer.Length1 == samplesPerRecord
        && chaBBuffer.Length0 == recordsPerBuffer && chaBBuffer.Length1 == samplesPerRecord
    }

    /** `__init__`: zero geometry, two channels, no raw buffer yet, and no
        channel arrays (`__init__` never creates them). */
    constructor ()
      ensures Valid()
      ensures samplesPerRecord == 0 && recordsPerBuffer == 0 && buffersPerAcquisition == 0
      ensures buffer == null && chaABuffer == null && chaBBuffer == null
    {
      samplesPerRecord, recordsPerBuffer, buffersPerAcquisition := 0, 0, 0;
      buffer, chaABuffer, chaBBuffer := null, null, null;
    }

    /** `pre_start_capture`: takes the geometry from the board and allocates
        a zero-filled raw buffer of `samples * records * 2` codes and two
        zero-filled `records × samples` channel arrays. */
    method PreStartCapture(samples: nat, records: nat, buffers: nat)
      modifies this
      ensures Valid()
      ensures samplesPerRecord == samples && recordsPerBuffer == records && buffersPerAcquisition == buffers
      ensures buffer != null && fresh(buffer) && fresh(chaABuffer) && fresh(chaBBuffer)
      ensures buffer[..] == seq(samples * records * 2, _ => 0)
      ensures forall r, s :: 0 <= r < records && 0 <= s < samples ==> chaABuffer[r, s] == 0.0 && chaBBuffer[r, s] == 0.0
    {
      var raw := ZeroFilled(samples * records * numberOfChannels);
      var a := ZeroChannel(records, samples);
      var b := ZeroChannel(records, samples);
      samplesPerRecord, recordsPerBuffer, buffersPerAcquisition := samples, records, buffers;
      buffer, chaABuffer, chaBBuffer := raw, a, b;
    }

    /** `handle_buffer`: adds the delivered buffer into the raw buffer element
        by element; the buffer number plays no part, and the channel arrays
        are not touched. */
    method HandleBuffer(delivered: seq<int>, bufferNumber: Option<nat>)
      requires Valid() && buffer != null
      requires |delivered| == buffer.Length
      modifies buffer
      ensures buffer[..] == Added(old(buffer[..]), delivered)
      ensures buffer[..] == Accumulated(old(buffer[..]), [delivered])
    {
      ghost var before := buffer[..];
      for k := 0 to buffer.Length
        invariant forall j :: 0 <= j < k ==> buffer[j] == before[j] + delivered[j]
        invariant forall j :: k <= j < buffer.Length ==> buffer[j] == before[j]
      {
        buffer[k] := buffer[k] + delivered[k];
      }
      assert buffer[..] == Added(before, delivered);
      assert [delivered][1..] == [];
    }

    /** `numba_get_alldata_from_buffer_in_volt`: runs the loop kernel over the
        raw buffer into the channel arrays, then returns those arrays
        themselves (`copy` false) or fresh copies of them (`copy` true).
        Before `pre_start_capture` the channel arrays do not exist and the
        call fails without writing anything. */
    method NumbaGetAllDataFromBufferInVolt(copy: bool) returns (result: Result<(array2<real>, array2<real>), ConversionError>)
      requires Valid()
      modifies chaABuffer, chaBBuffer
      ensures Valid()
      ensures result.Failure? <==> buffer == null
      ensures result.Failure? ==>
        && result.error == NoCapture
        && (chaABuffer != null ==> unchanged(chaABuffer))
        && (chaBBuffer != null ==> unchanged(chaBBuffer))
      ensures result.Success? ==>
        && unchanged(buffer)
        && Rows(chaABuffer) == ChannelVolts(buffer[..], recordsPerBuffer, samplesPerRecord, ChannelA)
        && Rows(chaBBuffer) == ChannelVolts(buffer[..], recordsPerBuffer, samplesPerRecord, ChannelB)
      ensures result.Success? && !copy ==> result.value.0 == chaABuffer && result.value.1 == chaBBuffer
      ensures result.Success? && copy ==>
        && fresh(result.value.0) && fresh(result.value.1)
        && result.value.0.Length0 == chaABuffer.Length0 && result.value.0.Length1 == chaABuffer.Length1
        && result.value.1.Length0 == chaBBuffer.Length0 && result.value.1.Length1 == chaBBuffer.Length1
        && Rows(result.value.0) == Rows(chaABuffer) && Rows(result.value.1) == Rows(chaBBuffer)
    {
      if buffer == null {
        return Failure(NoCapture);
      }
      ProcessBuffer(buffer, chaABuffer, chaBBuffer, recordsPerBuffer, samplesPerRecord);
      assert buffer[..recordsPerBuffer * samplesPerRecord * 2] == buffer[..];
      RowsAre(chaABuffer, ChannelVolts(buffer[..], recordsPerBuffer, samplesPerRecord, ChannelA));
      RowsAre(chaBBuffer, ChannelVolts(buffer[..], recordsPerBuffer, samplesPerRecord, ChannelB));
      if copy {
        var a := CopyOf(chaABuffer);
        var b := CopyOf(chaBBuffer);
        result := Success((a, b));
      } else {
        result := Success((chaABuffer, chaBBuffer));
      }
    }

    /** `numpy_get_alldata_from_buffer_in_volt`: reshapes the raw buffer to
        `records × -1 × 2`, subtracts the offset into each channel array and
        divides it by the scale in place, then returns the arrays themselves or
        fresh copies. Before `pre_start_capture` there is no raw buffer to
        reshape; with zero records the reshape fails. Either way nothing is
        written. Where it succeeds it computes what the loop kernel computes. */
    method NumpyGetAllDataFromBufferInVolt(copy: bool) returns (result: Result<(array2<real>, array2<real>), ConversionError>)
      requires Valid()
      modifies chaABuffer, chaBBuffer
      ensures Valid()
      ensures result.Failure? <==> buffer == null || recordsPerBuffer == 0
      ensures buffer == null ==> result == Failure(NoCapture)
      ensures buffer != null && recordsPerBuffer == 0 ==> result == Failure(ReshapeSizeMismatch(buffer.Length, 0))
      ensures result.Failure? ==>
        && (chaABuffer != null ==> unchanged(chaABuffer))
        && (chaBBuffer != null ==> unchanged(chaBBuffer))
      ensures result.Success? ==>
        && unchanged(buffer)
        && ReshapedChannelVolts(buffer[..], recordsPerBuffer, ChannelA) == Success(Rows(chaABuffer))
        && ReshapedChannelVolts(buffer[..], recordsPerBuffer, ChannelB) == Success(Rows(chaBBuffer))
        && Rows(chaABuffer) == ChannelVolts(buffer[..], recordsPerBuffer, samplesPerRecord, ChannelA)
        && Rows(chaBBuffer) == ChannelVolts(buffer[..], recordsPerBuffer, samplesPerRecord, ChannelB)
      ensures result.Success? && !copy ==> result.value.0 == chaABuffer && result.value.1 == chaBBuffer
      ensures result.Success? && copy ==>
        && fresh(result.value.0) && fresh(result.value.1)
        && result.value.0.Length0 == chaABuffer.Length0 && result.value.0.Length1 == chaABuffer.Length1
        && result.value.1.Length0 == chaBBuffer.Length0 && result.value.1.Length1 == chaBBuffer.Length1
        && Rows(result.value.0) == Rows(chaABuffer) && Rows(result.value.1) == Rows(chaBBuffer)
    {
      if buffer == null {
        return Failure(NoCapture);
      }
      if recordsPerBuffer == 0 {
        return Failure(ReshapeSizeMismatch(buffer.Length, recordsPerBuffer));
      }
      ReshapeConvert(buffer, recordsPerBuffer, samplesPerRecord, chaABuffer, chaBBuffer);
      if copy {
        var a := CopyOf(chaABuffer);
        var b := CopyOf(chaBBuffer);
        result := Success((a, b));
      } else {
        result := Success((chaABuffer, chaBBuffer));
      }
    }
  }

  // ---------------------------------------------------------------------------
  // What callers of the session can rely on

  /** A capture that receives the same buffer twice holds twice that buffer. */
  method DeliverTwice(c: RawAcquisitionController, samples: nat, records: nat, buffers: nat, delivered: seq<int>)
    requires |delivered| == samples * records * 2
    modifies c
    ensures c.Valid() && c.buffer != null
    ensures c.buffer[..] == seq(|delivered|, k requires 0 <= k < |delivered| => 2 * delivered[k])
  {
    c.PreStartCapture(samples, records, buffers);
    ghost var zero := c.buffer[..];
    c.HandleBuffer(delivered, Some(0));
    ghost var once := c.buffer[..];
    c.HandleBuffer(delivered, Some(1));
    assert c.buffer[..] == Accumulated(once, [delivered]);
    assert Accumulated(zero, [delivered, delivered]) == Accumulated(once, [delivered]) by {
      assert [delivered, delivered][1..] == [delivered];
    }
    DeliveringTwiceDoubles(delivered);
  }

  /** Alias versus copy: arrays returned with `copy` false are the session's
      own and show the next conversion; arrays returned with `copy` true keep
      the values of the conversion that made them. */
  method AliasVersusCopy(c: RawAcquisitionController, delivered: seq<int>)
    returns (view: array2<real>, snapshot: array2<real>)
    requires c.Valid() && c.buffer != null && |delivered| == c.buffer.Length
    modifies c.buffer, c.chaABuffer, c.chaBBuffer
    ensures c.Valid()
    ensures view == c.chaABuffer
    ensures c.buffer[..] == Added(old(c.buffer[..]), delivered)
    ensures Rows(view) == ChannelVolts(c.buffer[..], c.recordsPerBuffer, c.samplesPerRecord, ChannelA)
    ensures Rows(snapshot) == ChannelVolts(old(c.buffer[..]), c.recordsPerBuffer, c.samplesPerRecord, ChannelA)
  {
    var first := c.NumbaGetAllDataFromBufferInVolt(false);
    var second := c.NumbaGetAllDataFromBufferInVolt(true);
    view, snapshot := first.value.0, second.value.0;
    c.HandleBuffer(delivered, None);
    var third := c.NumbaGetAllDataFromBufferInVolt(false);
  }

  /** Converting before `pre_start_capture` fails on a fresh controller, by
      either path. */
  method ConvertBeforeCapture(copy: bool)
    returns (numba: Result<(array2<real>, array2<real>), ConversionError>,
             numpy: Result<(array2<real>, array2<real>), ConversionError>)
    ensures numba == Failure(NoCapture) && numpy == Failure(NoCapture)
  {
    var c := new RawAcquisitionController();
    numba := c.NumbaGetAllDataFromBufferInVolt(copy);
    numpy := c.NumpyGetAllDataFromBufferInVolt(copy);
  }

  /** Worked example for 256 samples and 2 records whose raw buffer starts
      `32760, 32760, 32840, 32680`: channel A reads 0 V then 80 codes above
      the offset, channel B reads 0 V then 80 codes below it. */
  lemma FirstSamplesExample(raw: seq<int>)
    requires |raw| == 2 * 256 * 2
    requires raw[0] == 32760 && raw[1] == 32760 && raw[2] == 32840 && raw[3] == 32680
    ensures ChannelVolts(raw, 2, 256, ChannelA)[0][0] == 0.0
    ensures ChannelVolts(raw, 2, 256, ChannelB)[0][0] == 0.0
    ensures ChannelVolts(raw, 2, 256, ChannelA)[0][1] == 80.0 / 81900.0
    ensures ChannelVolts(raw, 2, 256, ChannelB)[0][1] == -80.0 / 81900.0
  {
  }
}
