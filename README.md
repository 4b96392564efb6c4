# ATS9371 raw acquisition: a Dafny model

This project models two parts of a QCoDeS driver for the AlazarTech ATS9371
digitizer.

The first is the raw acquisition controller (`raw_acq_ctrl.py`):

- Its session buffers: one flat raw buffer, plus one `records × samples` array
  per channel.
- `pre_start_capture`, which allocates the buffers.
- `handle_buffer`, which adds each delivered DMA buffer into the raw buffer.
- The ADC-code-to-volt conversion.
- The two converters that split the interleaved `[A, B, A, B, ...]` raw stream
  into the channel arrays:
  - a loop kernel (`process_buffer`, used by
    `numba_get_alldata_from_buffer_in_volt`);
  - a reshape-based vectorised path (`numpy_get_alldata_from_buffer_in_volt`).
- Whether the arrays the converters return are the session's own arrays or
  fresh copies.

The second is the logic of the board driver (`ats9371.py`):

- The board-model check at construction.
- The `samples_per_record` validator.
- The firmware-gated trigger-holdoff flag, which is bit 26 of register 58:
  - its getter, modelled exactly as written;
  - its setter.

## Design

**`raw_acq_ctrl.dfy`, module `RawAcqCtrl`**

- The controller is a class. Its fields are:
  - the geometry;
  - a nullable raw `array<int>`;
  - two nullable `array2<real>` channel arrays.

  The methods update these fields in place, as the source does.
- The converters are proved against specification functions on sequences:
  - `ChannelVolts` says what the loop kernel writes.
  - `ReshapedChannelVolts` says what the reshape path computes, or that it
    fails.
  - `Accumulated` says what a series of `handle_buffer` calls leaves in the raw
    buffer.
- The raw index map `(r, s, ch) ↦ (r·samples + s)·2 + ch` is proved to be a
  bijection onto the raw buffer.
- The reshape view is proved to read the same positions as the loop kernel, so
  the two converters agree.

**`ats9371.dfy`, module `Ats9371`**

- The board is a class. Its fields are:
  - its identity;
  - register 58;
  - a log of register accesses.
- `bin()` is modelled on naturals.
- Firmware versions are compared as PEP 440 releases: component by component,
  with missing components counted as zeros.
- The value written to the register is proved to:
  - set bit 26 exactly when the argument `is True`, so `np.True_` clears it;
  - keep every other bit;
  - be read back correctly by the intended getter.

**`arith.dfy`, module `Arith`** holds the division and remainder facts that both
modules use. **`wrappers.dfy`** holds `Option`, `Result` and `Outcome`.

## Two facts about the code worth knowing

- Raw position 1 is channel B, sample 0. So a buffer starting
  `32760, 32760, 32840, 32680` reads:
  - channel A: 0 V at sample 0 and +80/81900 V at sample 1;
  - channel B: 0 V at sample 0 and −80/81900 V at sample 1.

  `RawAcqCtrl.FirstSamplesExample` states this.
- With zero records, `reshape(0, -1, 2)` raises (`raw_acq_ctrl.py:108`), while
  the loop kernel returns empty arrays. The reshape-based path returns
  `Failure` in that case; for every other geometry the two converters agree.

## Model

| member | source | states |
|---|---|---|
| `RawAcqCtrl.SignalToVoltCalibration` | raw_acq_ctrl.py:39-46 | the offset code 32760 reads 0 V; the conversion is strictly increasing in both directions; the code is recovered as volts × 81900 + 32760 |
| `RawAcqCtrl.RawIndexInBounds` | raw_acq_ctrl.py:33-37 | every `(r, s)` of the kernel's loops and each of the two channels indexes inside a raw buffer of `records · samples · 2` codes |
| `RawAcqCtrl.RawIndexInjective` | raw_acq_ctrl.py:35-37 | two cells with the same raw index have the same record, sample and channel, so no raw code is read for two cells |
| `RawAcqCtrl.RawIndexSurjective` | raw_acq_ctrl.py:35-37 | every raw position is the index of some record, sample and channel, so no raw code is ignored |
| `RawAcqCtrl.ProcessBuffer` | raw_acq_ctrl.py:26-37 | cell `[r, s]` of channel A (B) becomes the volt value of raw code `2(r·n_samples + s)` (`+1`) for every record and sample in range; every other cell keeps its old value, and the raw buffer is only read |
| `RawAcqCtrl.ReshapeIndexIsRawIndex` | raw_acq_ctrl.py:108-110 | element `[r, m, ch]` of the row-major `reshape(records, -1, 2)` view is the raw code the loop kernel reads for record `r`, sample `m`, channel `ch` |
| `RawAcqCtrl.ReshapeAgreesWithLoop` | raw_acq_ctrl.py:99-117 | with at least one record, the reshape path yields exactly the channel arrays the loop kernel writes; with zero records it fails |
| `RawAcqCtrl.SubtractOffsetInto` | raw_acq_ctrl.py:114 | the output array holds, cell by cell, the reshaped channel's code minus 32760 |
| `RawAcqCtrl.DivideInPlace` | raw_acq_ctrl.py:115 | every cell of the array is divided by the scale, in place |
| `RawAcqCtrl.ReshapeConvert` | raw_acq_ctrl.py:108-117 | after the subtract-then-divide steps, each channel array equals both the reshape path's value and the loop kernel's value |
| `RawAcqCtrl.CopyOf` | raw_acq_ctrl.py:120 | `.copy()` returns a fresh array of the same shape (also when it has no rows) with the same cells |
| `RawAcqCtrl.ZeroFilled` | raw_acq_ctrl.py:175-177 | a fresh raw buffer of the given length, all zeros |
| `RawAcqCtrl.ZeroChannel` | raw_acq_ctrl.py:181-182 | a fresh `records × samples` channel array, all zeros |
| `RawAcqCtrl.RawAcquisitionController.constructor` | raw_acq_ctrl.py:62-72 | zero geometry, two channels, no raw buffer and no channel arrays |
| `RawAcqCtrl.RawAcquisitionController.PreStartCapture` | raw_acq_ctrl.py:167-182 | stores the board geometry; allocates a fresh zero raw buffer of `samples·records·2` codes and two fresh, distinct, zero `records × samples` channel arrays |
| `RawAcqCtrl.RawAcquisitionController.HandleBuffer` | raw_acq_ctrl.py:195-203 | the raw buffer becomes the element-wise sum of its old contents and the delivered buffer (one step of `Accumulated`); the buffer number plays no part |
| `RawAcqCtrl.AccumulatedAt` | raw_acq_ctrl.py:203 | after any series of deliveries, each raw element is its start value plus that element summed over all deliveries |
| `RawAcqCtrl.SumAtAppend` | raw_acq_ctrl.py:203 | element sums over two consecutive blocks of deliveries add up |
| `RawAcqCtrl.AccumulationSwapBlocks` | raw_acq_ctrl.py:203 | delivering block `q` before block `p` leaves the same raw buffer as `p` before `q` |
| `RawAcqCtrl.AccumulationSwapNeighbours` | raw_acq_ctrl.py:203 | swapping any two neighbouring deliveries leaves the same raw buffer |
| `RawAcqCtrl.SumAtPermutation` | raw_acq_ctrl.py:203 | two delivery sequences with the same multiset of buffers sum every element to the same value |
| `RawAcqCtrl.AccumulationPermutation` | raw_acq_ctrl.py:203 | any reordering of the deliveries (same multiset of buffers) leaves the same raw buffer |
| `RawAcqCtrl.DeliveringTwiceDoubles` | raw_acq_ctrl.py:203 | delivering one buffer twice into a zero buffer gives twice that buffer |
| `RawAcqCtrl.RawAcquisitionController.NumbaGetAllDataFromBufferInVolt` | raw_acq_ctrl.py:124-144 | before `pre_start_capture` it fails with `NoCapture` and writes nothing, as the source fails on the channel arrays `__init__` never creates; otherwise the channel arrays hold `ChannelVolts` of the raw buffer, the raw buffer is unchanged, and with `copy` false the session's own arrays are returned, with `copy` true fresh arrays of the same shape with the same cells |
| `RawAcqCtrl.RawAcquisitionController.NumpyGetAllDataFromBufferInVolt` | raw_acq_ctrl.py:99-122 | fails exactly when there is no raw buffer yet (`NoCapture`, the source's `None.reshape`) or there are zero records (the reshape error), and then writes nothing; otherwise the channel arrays hold the reshape path's value, which is `ChannelVolts`; returns the session's own arrays or fresh copies of the same shape depending on `copy` |
| `RawAcqCtrl.DeliverTwice` | raw_acq_ctrl.py:167-203 | a capture started with `pre_start_capture` that then receives the same buffer twice holds twice that buffer |
| `RawAcqCtrl.AliasVersusCopy` | raw_acq_ctrl.py:130-144 | after a further delivery, an array returned with `copy=False` shows the new conversion, while one returned with `copy=True` keeps the old one |
| `RawAcqCtrl.ConvertBeforeCapture` | raw_acq_ctrl.py:62-144 | on a controller fresh from `__init__`, both converters fail with `NoCapture`, as the source fails on the missing buffers |
| `RawAcqCtrl.FirstSamplesExample` | raw_acq_ctrl.py:33-37 | for a buffer starting `32760, 32760, 32840, 32680`: channel A reads 0 V and then +80/81900 V; channel B reads 0 V and then −80/81900 V |
| `Ats9371.ValidSamplesPerRecordBlocks` | ats9371.py:287 | the accepted `samples_per_record` values are exactly `128·k` for `k ≥ 2` |
| `Ats9371.VersionLessFromStrictOrder` | ats9371.py:428-430 | the firmware release ordering is irreflexive and transitive |
| `Ats9371.BinaryDigitsLength` | ats9371.py:437-442 | `bin(x)[2:]` has more than `k` digits exactly when `x ≥ 2^k`, so the length guard fails exactly below `2^26` |
| `Ats9371.BinaryDigitFromEnd` | ats9371.py:437-444 | counting from the end, digit `k` of `bin(x)[2:]` is bit `k` of `x` |
| `Ats9371.TriggerHoldoffAsWrittenMeaning` | ats9371.py:426-444 | the getter as written reports enabled exactly when the firmware is a string of release ≥ 30.04 and the register value is at least `2^26`, whatever bit 26 holds |
| `Ats9371.TriggerHoldoffIntendedReadsBit` | ats9371.py:433-444 | the getter with the digit compared to `'1'` reports enabled exactly when the firmware is supported and bit 26 is set |
| `Ats9371.HoldoffWrittenBits` | ats9371.py:459-473 | the written value has bit 26 equal to `value` and the same bits below and above bit 26 as the value read |
| `Ats9371.HoldoffWrittenOtherBits` | ats9371.py:459-473 | every bit other than bit 26 of the written value equals that bit of the value read |
| `Ats9371.HoldoffWrittenLastWins` | ats9371.py:457-474 | of two consecutive writes, the later one alone decides the register value |
| `Ats9371.HoldoffWrittenIdempotent` | ats9371.py:457-474 | setting the same value twice writes what setting it once does |
| `Ats9371.IntendedReadsBackWrite` | ats9371.py:426-474 | with supported firmware, the intended getter reads back the value the setter wrote |
| `Ats9371.SetFalseStillReadsEnabled` | ats9371.py:444 | on register `0x08000000` with firmware 30.04, disabling leaves bit 26 clear, yet the getter as written still reports enabled |
| `Ats9371.AlazarTechAts9371.Create` | ats9371.py:419-424 | construction succeeds exactly when the board reports model `ATS9371`; otherwise it fails with the model found, and makes no register access |
| `Ats9371.AlazarTechAts9371.GetTriggerHoldoff` | ats9371.py:426-444 | returns the as-written reading, that is, supported firmware and register ≥ `2^26`; reads register 58 once, and only when the firmware is supported |
| `Ats9371.NumpyTrueClearsFlag` | ats9371.py:459-473 | `np.True_` is truthy but fails `value is True`, so on a register with bit 26 set it takes the clearing branch and writes 0, which the intended getter reads as disabled |
| `Ats9371.TruthfulSetReadsBack` | ats9371.py:459-473 | branching on the argument's truth value, the intended getter reads back that truth value for Python and numpy booleans alike, and for Python `True` this is the branch the source takes |
| `Ats9371.AlazarTechAts9371.SetTriggerHoldoff` | ats9371.py:446-474 | unsupported firmware (not a string, or below 30.04) fails with the required and found versions and touches no register; otherwise reads register 58 and writes it once, with bit 26 set exactly when the argument `is True` (Python `True`; `np.True_`, `False` and `np.False_` clear it) and every other bit unchanged |

## Left out

- Floating point. Volts are exact reals, and raw codes (a float64 buffer in the source) are exact integers. Rounding in `/ 81900.0` and precision loss in large accumulated sums are not modelled.
- `RawAcqCtrl.RawAcquisitionController.HandleBuffer`: requires the delivered buffer to have the raw buffer's length. numpy broadcasting of other shapes, and the `AssertionError` when no capture was started, are not modelled. Callers establish both.
- The `numba.prange` parallel loop is modelled as a sequential loop. Iteration `r` writes only row `r` of the two channel arrays, and the raw buffer is only read. `ProcessBuffer`'s frame and loop invariants state this, so the order of the iterations does not matter.
- Views: with `copy=False` the source returns the buffers themselves, which the model captures by returning the same arrays. numpy's `reshape` and slice views are modelled as index arithmetic (`ReshapeIndex`), not as aliasing arrays.
- The reshape path's failure is modelled for zero records. Other sizes cannot arise, because `Valid()` fixes the raw buffer size to `samples · records · 2`.
- Firmware strings: versions are modelled as already-parsed release components. PEP 440 parsing, and pre-, post- and dev-releases, epochs and local versions, are not modelled. The firmware entry is either not a string (`NotAString`) or a release.
- Driver and DLL calls are not modelled. This covers `get_idn`, `_read_register`, `_write_register`, `acquire` and `_get_alazar`. The board identity is a parameter, register 58 is a field, and each access is appended to `accessLog`. Board parameters passed to `pre_start_capture` arrive as plain arguments.
- The register is modelled as an integer word below `2^32`, not as a bit-vector. `current | (1 << 26)` and `current & ~(1 << 26)` are stated as adding or removing `2^26` according to bit 26. `HoldoffWrittenBits` and `HoldoffWrittenOtherBits` prove that this sets the one bit and keeps all others.
- `Ats9371.AlazarTechAts9371.SetTriggerHoldoff`: the argument is one of the values the `Bool` validator accepts, that is, a Python `bool` or a numpy `bool_` (`BoolArgument`). Other values, which the validator rejects, are not modelled.
- qcodes parameter plumbing is not modelled. This covers `add_parameter`, the other board parameters, the `Multiples` validator's integer type check, and `samples_per_record`'s default of 1024. Only the validator's accept rule is modelled.
- `Ats9371.ValidSamplesPerRecordBlocks`: the validator's upper bound, which qcodes' `Ints` imposes by default (10^18), is not modelled, because it comes from qcodes rather than from this driver.
- `do_acquisition`, `update_acquisitionkwargs`, `pre_acquire` and `post_acquire` are not modelled. They only forward to the driver or do nothing. The commented-out averaging code is left out too.
- `RawAcqCtrl.RawAcquisitionController.PreStartCapture`: the board parameters are plain naturals. A negative or non-integer value from the board is not modelled.

## Findings

| source | as written | input that shows it | evidently intended | confidence | as-written member | corrected member |
|---|---|---|---|---|---|---|
| ats9371.py:459 | `value is True` is an identity test, so the numpy boolean `np.True_`, which the `Bool` validator accepts, takes the clearing branch | register 58 = `0x04000000` with firmware `30.04`: `set(np.True_)` writes 0, clearing the holdoff it was asked to enable | branch on the truth value (`if value:`) | medium; not executed | `Ats9371.NumpyTrueClearsFlag` | `Ats9371.TruthfulSetReadsBack` |
| ats9371.py:444 | `bool(bin(output)[-27])` is the truth value of a one-character string, which is always true, so once the length guard passes the getter reports enabled whatever bit 26 holds | register 58 = `0x08000000` with firmware `30.04`: `set(False)` leaves it unchanged (bit 26 already clear), and the getter still returns true | `bin(output)[-27] == '1'`, reporting bit 26 | high; not executed | `Ats9371.SetFalseStillReadsEnabled` | `Ats9371.IntendedReadsBackWrite` |
