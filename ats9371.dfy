/** The parts of the ATS9371 board driver that carry logic: the board identity
    check at construction, the `samples_per_record` rule, and the
    firmware-gated trigger-holdoff flag, bit 26 of 32-bit register 58.

    The register is a field of the board; each register access is recorded
    in an access log so that contracts can say which reads and writes happen. */
module Ats9371 {
  import opened Wrappers
  import opened Arith

  /** The model string the board must report. */
  const BoardModel: string := "ATS9371"

  /** `samples_per_record` must be a multiple of this ... */
  const SamplesDivisor: nat := 128
  /** ... and at least this. */
  const MinSamplesPerRecord: nat := 256

  /** The trigger-holdoff flag is bit 26 of register 58. */
  const TriggerHoldoffRegister: nat := 58
  const TriggerHoldoffBit: nat := 26
  /** `1 << 26`: the flag bit on its own. */
  const TriggerHoldoffMask: nat := 0x0400_0000

  /** Register values are unsigned 32-bit words, read and written as
      Python integers. */
  const WordLimit: nat := 0x1_0000_0000
  type Word = x: int | 0 <= x < WordLimit

  /** Firmware release `30.04`, the first with trigger-holdoff support. */
  const TriggerHoldoffMinFirmware: seq<nat> := [30, 4]

  /** The `firmware` entry of the board identity: not a string at all, or a
      release given by its numeric components. */
  datatype Firmware = NotAString | Release(components: seq<nat>)

  /** The entries of the board identity that the driver consults. */
  datatype Identity = Identity(model: string, firmware: Firmware)

  datatype DriverError =
    | UnsupportedBoard(foundModel: string)
    | UnsupportedFirmware(required: seq<nat>, foundFirmware: Firmware)

  datatype RegisterAccess = Read(address: nat) | Write(address: nat, value: Word)

  /** A value the `Bool` validator lets through to the setter: a Python `bool`
      or a numpy `bool_`, each with its truth value. */
  datatype BoolArgument = PythonBool(truth: bool) | NumpyBool(truth: bool)

  /** `value is True`: only the Python singleton `True` passes the identity
      test; `np.True_` is a different object. */
  predicate IsTrue(value: BoolArgument)
  {
    value == PythonBool(true)
  }

  // ---------------------------------------------------------------------------
  // The samples_per_record rule

  /** `samples_per_record` is accepted when it is a multiple of 128 and at
      least 256. */
  predicate ValidSamplesPerRecord(n: int)
  {
    n >= MinSamplesPerRecord && n % SamplesDivisor == 0
  }

  /** The accepted values are exactly `128 * k` for `k >= 2`. */
  lemma ValidSamplesPerRecordBlocks(n: int)
    ensures ValidSamplesPerRecord(n) <==> n >= 0 && n % 128 == 0 && n / 128 >= 2
    ensures ValidSamplesPerRecord(n) ==> n == 128 * (n / 128)
  {
  }

  // ---------------------------------------------------------------------------
  // Firmware versions

  /** Component `i` of a release, a missing component counting as 0. */
  function Component(v: seq<nat>, i: nat): nat
  {
    if i < |v| then v[i] else 0
  }

  /** The length of the longer release. */
  function MaxLength(a: seq<nat>, b: seq<nat>): nat
  {
    if |a| < |b| then |b| else |a|
  }

  /** Release ordering from component `i` on: the first differing component
      decides, and a shorter release is padded with zeros (so `30.4` and
      `30.04.0` are the same release). */
  function VersionLessFrom(a: seq<nat>, b: seq<nat>, i: nat): bool
    decreases MaxLength(a, b) - i
  {
    if i >= |a| && i >= |b| then false
    else if Component(a, i) != Component(b, i) then Component(a, i) < Component(b, i)
    else VersionLessFrom(a, b, i + 1)
  }

  /** `version.parse(a) < version.parse(b)` on plain releases. */
  function VersionLess(a: seq<nat>, b: seq<nat>): bool
  {
    VersionLessFrom(a, b, 0)
  }

  /** Release ordering is a strict order: irreflexive and transitive. */
  lemma {:induction false} VersionLessFromStrictOrder(a: seq<nat>, b: seq<nat>, c: seq<nat>, i: nat)
    ensures !VersionLessFrom(a, a, i)
    ensures VersionLessFrom(a, b, i) && VersionLessFrom(b, c, i) ==> VersionLessFrom(a, c, i)
    decreases |a| + |b| + |c| - i
  {
    if i < |a| || i < |b| || i < |c| {
      VersionLessFromStrictOrder(a, b, c, i + 1);
    }
  }

  /** The trigger holdoff needs a firmware string of release `30.04` or later. */
  predicate HoldoffSupported(fw: Firmware)
  {
    fw.Release? && !VersionLess(fw.components, TriggerHoldoffMinFirmware)
  }

  // ---------------------------------------------------------------------------
  // Bits of a register word

  /** `2^k`. */
  function Pow2(k: nat): (p: nat)
    ensures p >= 1
  {
    if k == 0 then 1 else 2 * Pow2(k - 1)
  }

  /** `2^(a + b) == 2^a * 2^b`. */
  lemma {:induction false} Pow2Add(a: nat, b: nat)
    ensures Pow2(a + b) == Pow2(a) * Pow2(b)
    decreases a
  {
    if a > 0 {
      Pow2Add(a - 1, b);
    }
  }

  /** The flag mask is `2^26`. */
  lemma HoldoffMaskIsPow2()
    ensures Pow2(TriggerHoldoffBit) == TriggerHoldoffMask
  {
    Pow2Add(13, 13);
    assert Pow2(13) == 8192;
  }

  /** Bit `k` of `x`, counting from the least significant bit. */
  predicate BitOf(x: nat, k: nat)
  {
    x / Pow2(k) % 2 == 1
  }

  // ---------------------------------------------------------------------------
  // Python's bin()

  function DigitChar(b: bool): char
  {
    if b then '1' else '0'
  }

  /** `bin(x)[2:]`: the binary digits of `x`, most significant first, with no
      leading zeros (`"0"` for zero). */
  function BinaryDigits(x: nat): (d: string)
    ensures |d| >= 1
  {
    if x < 2 then [DigitChar(x == 1)] else BinaryDigits(x / 2) + [DigitChar(x % 2 == 1)]
  }

  /** `bin(x)`: `0b` followed by the binary digits of `x`. */
  function Bin(x: nat): string
  {
    "0b" + BinaryDigits(x)
  }

  /** `x` has more than `k` binary digits exactly when `x >= 2^k`. */
  lemma {:induction false} BinaryDigitsLength(x: nat, k: nat)
    requires k > 0
    ensures |BinaryDigits(x)| > k <==> x >= Pow2(k)
    decreases k
  {
    if x >= 2 && k > 1 {
      BinaryDigitsLength(x / 2, k - 1);
    }
  }

  /** Counting from the end, digit `k` of `bin(x)[2:]` is bit `k` of `x`. */
  lemma {:induction false} BinaryDigitFromEnd(x: nat, k: nat)
    requires k < |BinaryDigits(x)|
    ensures BinaryDigits(x)[|BinaryDigits(x)| - 1 - k] == DigitChar(BitOf(x, k))
    decreases k
  {
    if k > 0 {
      BinaryDigitFromEnd(x / 2, k - 1);
      DivDiv(x, 2, Pow2(k - 1));
    }
  }

  // ---------------------------------------------------------------------------
  // Reading the trigger holdoff

  /** Python's truth value of a string: true unless it is empty. */
  predicate PyTruthy(s: string)
  {
    |s| > 0
  }

  /** `_get_trigger_holdoff` as written: false for unsupported firmware or a
      register value whose binary form has fewer than 27 digits; otherwise the
      truth value of the one-character string at position -27. */
  function TriggerHoldoffAsWritten(fw: Firmware, register: Word): bool
  {
    if !HoldoffSupported(fw) then false
    else
      var bitmask := Bin(register)[2..];
      if |bitmask| < 27 then false
      else PyTruthy([Bin(register)[|Bin(register)| - 27]])
  }

  /** What the getter reports: enabled exactly when the firmware is supported
      and the register value is at least `2^26`, whatever bit 26 holds. */
  lemma TriggerHoldoffAsWrittenMeaning(fw: Firmware, register: Word)
    ensures TriggerHoldoffAsWritten(fw, register) <==> HoldoffSupported(fw) && register >= TriggerHoldoffMask
  {
    BinaryDigitsLength(register, TriggerHoldoffBit);
    HoldoffMaskIsPow2();
    assert Bin(register)[2..] == BinaryDigits(register);
  }

  /** The reading the getter's comments describe: the digit at position -27
      of `bin(x)` compared with '1'. */
  function TriggerHoldoffIntended(fw: Firmware, register: Word): bool
  {
    if !HoldoffSupported(fw) then false
    else
      var bitmask := Bin(register)[2..];
      if |bitmask| < 27 then false
      else Bin(register)[|Bin(register)| - 27] == '1'
  }

  /** The intended reading tests bit 26 of the register. */
  lemma TriggerHoldoffIntendedReadsBit(fw: Firmware, register: Word)
    ensures TriggerHoldoffIntended(fw, register) <==> HoldoffSupported(fw) && BitOf(register, TriggerHoldoffBit)
  {
    BinaryDigitsLength(register, TriggerHoldoffBit);
    HoldoffMaskIsPow2();
    var digits := BinaryDigits(register);
    assert Bin(register)[2..] == digits;
    if |digits| > TriggerHoldoffBit {
      BinaryDigitFromEnd(register, TriggerHoldoffBit);
      assert Bin(register)[|Bin(register)| - 27] == digits[|digits| - 27];
    }
  }

  // ---------------------------------------------------------------------------
  // Writing the trigger holdoff

  /** The value `_set_trigger_holdoff` writes back: `current | (1 << 26)` when
      `value` is true, `current & ~(1 << 26)` otherwise. With a one-bit mask,
      the OR adds the bit when it is clear and the AND removes it when it is
      set. */
  function HoldoffWritten(current: Word, value: bool): Word
  {
    HoldoffMaskIsPow2();
    var isSet := BitOf(current, TriggerHoldoffBit);
    if value then (if isSet then current else current + TriggerHoldoffMask)
    else (if isSet then current - TriggerHoldoffMask else current)
  }

  /** A word splits into its bits above bit 26, bit 26, and its bits below
      bit 26. */
  lemma WordParts(x: Word)
    ensures x == x / (2 * TriggerHoldoffMask) * (2 * TriggerHoldoffMask)
                 + (if BitOf(x, TriggerHoldoffBit) then TriggerHoldoffMask else 0)
                 + x % TriggerHoldoffMask
  {
    HoldoffMaskIsPow2();
    SplitAround(x, TriggerHoldoffMask);
  }

  /** The written value has bit 26 equal to `value`, and the bits below and
      above bit 26 as they were. */
  lemma HoldoffWrittenBits(current: Word, value: bool)
    ensures BitOf(HoldoffWritten(current, value), TriggerHoldoffBit) == value
    ensures HoldoffWritten(current, value) % TriggerHoldoffMask == current % TriggerHoldoffMask
    ensures HoldoffWritten(current, value) / (2 * TriggerHoldoffMask) == current / (2 * TriggerHoldoffMask)
  {
    HoldoffMaskIsPow2();
    WordParts(current);
    var high, low := current / (2 * TriggerHoldoffMask), current % TriggerHoldoffMask;
    var bit := if value then 1 else 0;
    assert HoldoffWritten(current, value) == high * (2 * TriggerHoldoffMask) + bit * TriggerHoldoffMask + low;
    JoinAround(high, bit, low, TriggerHoldoffMask);
  }

  /** A bit below position `j` is a bit of the remainder by `2^j`. */
  lemma BitBelow(x: nat, j: nat, k: nat)
    requires k < j
    ensures BitOf(x, k) <==> BitOf(x % Pow2(j), k)
  {
    assert Pow2(j) == 2 * Pow2(j - k - 1) * Pow2(k) by {
      Pow2Add(j - k, k);
      assert Pow2(j - k) == 2 * Pow2(j - k - 1);
    }
    DigitOfRemainder(x, Pow2(k), Pow2(j - k - 1));
  }

  /** A bit at or above position `j` is a bit of the quotient by `2^j`. */
  lemma BitAbove(x: nat, j: nat, k: nat)
    requires j <= k
    ensures x / Pow2(j) >= 0
    ensures BitOf(x, k) <==> BitOf(x / Pow2(j), k - j)
  {
    DivMod(x, Pow2(j));
    Pow2Add(j, k - j);
    DivDiv(x, Pow2(j), Pow2(k - j));
  }

  /** Bits below bit 26 are bits of the part below the flag; bits above it
      are bits of the part above the flag. */
  lemma BitAwayFromFlag(x: Word, k: nat)
    requires k != TriggerHoldoffBit
    ensures k < TriggerHoldoffBit ==> (BitOf(x, k) <==> BitOf(x % TriggerHoldoffMask, k))
    ensures k > TriggerHoldoffBit ==> (BitOf(x, k) <==> BitOf(x / (2 * TriggerHoldoffMask), k - 27))
  {
    HoldoffMaskIsPow2();
    if k < TriggerHoldoffBit {
      BitBelow(x, 26, k);
    } else {
      assert Pow2(27) == 2 * TriggerHoldoffMask;
      BitAbove(x, 27, k);
    }
  }

  /** Writing the flag leaves every bit other than bit 26 as it was. */
  lemma HoldoffWrittenOtherBits(current: Word, value: bool, k: nat)
    requires k != TriggerHoldoffBit
    ensures BitOf(HoldoffWritten(current, value), k) == BitOf(current, k)
  {
    HoldoffWrittenBits(current, value);
    BitAwayFromFlag(current, k);
    BitAwayFromFlag(HoldoffWritten(current, value), k);
  }

  /** A word is determined by its bits below bit 26, bit 26, and its bits
      above bit 26. */
  lemma SameBitsSameWord(x: Word, y: Word)
    requires x % TriggerHoldoffMask == y % TriggerHoldoffMask
    requires BitOf(x, TriggerHoldoffBit) == BitOf(y, TriggerHoldoffBit)
    requires x / (2 * TriggerHoldoffMask) == y / (2 * TriggerHoldoffMask)
    ensures x == y
  {
    WordParts(x);
    WordParts(y);
  }

  /** Of two writes, the later one decides the register value. */
  lemma HoldoffWrittenLastWins(current: Word, first: bool, later: bool)
    ensures HoldoffWritten(HoldoffWritten(current, first), later) == HoldoffWritten(current, later)
  {
    var once := HoldoffWritten(current, first);
    HoldoffWrittenBits(current, first);
    HoldoffWrittenBits(once, later);
    HoldoffWrittenBits(current, later);
    SameBitsSameWord(HoldoffWritten(once, later), HoldoffWritten(current, later));
  }

  /** Setting the same value twice writes what setting it once does. */
  lemma HoldoffWrittenIdempotent(current: Word, value: bool)
    ensures HoldoffWritten(HoldoffWritten(current, value), value) == HoldoffWritten(current, value)
  {
    HoldoffWrittenLastWins(current, value, value);
  }

  /** Reading back with the intended getter gives the value just written. */
  lemma IntendedReadsBackWrite(fw: Firmware, current: Word, value: bool)
    requires HoldoffSupported(fw)
    ensures TriggerHoldoffIntended(fw, HoldoffWritten(current, value)) == value
  {
    TriggerHoldoffIntendedReadsBit(fw, HoldoffWritten(current, value));
    HoldoffWrittenBits(current, value);
  }

  /** The getter as written does not read back a cleared flag: on
      `0x08000000` (bit 26 clear) with firmware `30.04`, disabling the holdoff
      leaves the register unchanged and the getter still reports it enabled. */
  lemma SetFalseStillReadsEnabled()
    ensures HoldoffWritten(0x0800_0000, false) == 0x0800_0000
    ensures !BitOf(HoldoffWritten(0x0800_0000, false), TriggerHoldoffBit)
    ensures TriggerHoldoffAsWritten(Release([30, 4]), HoldoffWritten(0x0800_0000, false))
  {
    HoldoffMaskIsPow2();
    assert HoldoffSupported(Release([30, 4]));
    TriggerHoldoffAsWrittenMeaning(Release([30, 4]), 0x0800_0000);
  }

  /** The setter as written clears the flag when given `np.True_`: on a
      register with bit 26 set and firmware `30.04`, the truthy argument
      writes `0`, and even the intended getter then reports the holdoff
      disabled. */
  lemma NumpyTrueClearsFlag()
    ensures NumpyBool(true).truth && !IsTrue(NumpyBool(true))
    ensures HoldoffWritten(TriggerHoldoffMask, IsTrue(NumpyBool(true))) == 0
    ensures !TriggerHoldoffIntended(Release([30, 4]), HoldoffWritten(TriggerHoldoffMask, IsTrue(NumpyBool(true))))
  {
    HoldoffMaskIsPow2();
    assert BitOf(TriggerHoldoffMask, TriggerHoldoffBit);
    assert HoldoffSupported(Release([30, 4]));
    TriggerHoldoffIntendedReadsBit(Release([30, 4]), 0);
  }

  /** The setter branching on the argument's truth value, as the validator's
      acceptance of both boolean types calls for: whatever the register held,
      the intended getter reads back the argument's truth value, for Python
      and numpy booleans alike. */
  lemma TruthfulSetReadsBack(fw: Firmware, current: Word, value: BoolArgument)
    requires HoldoffSupported(fw)
    ensures TriggerHoldoffIntended(fw, HoldoffWritten(current, value.truth)) == value.truth
    ensures IsTrue(value) ==> HoldoffWritten(current, value.truth) == HoldoffWritten(current, IsTrue(value))
  {
    IntendedReadsBackWrite(fw, current, value.truth);
  }

  // ---------------------------------------------------------------------------
  // The board

  /** `AlazarTechATS9371`: the identity the board reports, register 58 and
      the log of register accesses made by the driver. */
  class AlazarTechAts9371 {
    const identity: Identity
    var register58: Word
    var accessLog: seq<RegisterAccess>

    constructor Connect(idn: Identity, register: Word)
      ensures identity == idn && register58 == register && accessLog == []
    {
      identity := idn;
      register58 := register;
      accessLog := [];
    }

    /** `__init__`: construction fails unless the board reports the model
        `ATS9371`, and makes no register access. */
    static method Create(idn: Identity, register: Word) returns (result: Result<AlazarTechAts9371, DriverError>)
      ensures result.Success? <==> idn.model == BoardModel
      ensures result.Failure? ==> result.error == UnsupportedBoard(idn.model)
      ensures result.Success? ==>
        && fresh(result.value)
        && result.value.identity == idn && result.value.register58 == register && result.value.accessLog == []
    {
      if idn.model != BoardModel {
        return Failure(UnsupportedBoard(idn.model));
      }
      var board := new AlazarTechAts9371.Connect(idn, register);
      return Success(board);
    }

    /** `_get_trigger_holdoff`, as written: reads register 58 only when the
        firmware supports the holdoff, and reports it enabled exactly when the
        register value is at least `2^26`. */
    method GetTriggerHoldoff() returns (enabled: bool)
      modifies this`accessLog
      ensures enabled == TriggerHoldoffAsWritten(identity.firmware, register58)
      ensures enabled <==> HoldoffSupported(identity.firmware) && register58 >= TriggerHoldoffMask
      ensures accessLog == old(accessLog) + (if HoldoffSupported(identity.firmware) then [Read(TriggerHoldoffRegister)] else [])
    {
      TriggerHoldoffAsWrittenMeaning(identity.firmware, register58);
      if !HoldoffSupported(identity.firmware) {
        return false;
      }
      accessLog := accessLog + [Read(TriggerHoldoffRegister)];
      var output := register58;
      var bitmask := Bin(output)[2..];
      if |bitmask| < 27 {
        return false;
      }
      return PyTruthy([Bin(output)[|Bin(output)| - 27]]);
    }

    /** `_set_trigger_holdoff`: with unsupported firmware, fails and touches no
        register; otherwise reads register 58 and writes it back once with bit
        26 set exactly when `value is True`, and every other bit unchanged. */
    method SetTriggerHoldoff(value: BoolArgument) returns (outcome: Outcome<DriverError>)
      modifies this`register58, this`accessLog
      ensures !HoldoffSupported(identity.firmware) ==>
        && outcome == Fail(UnsupportedFirmware(TriggerHoldoffMinFirmware, identity.firmware))
        && register58 == old(register58) && accessLog == old(accessLog)
      ensures HoldoffSupported(identity.firmware) ==>
        && outcome == Pass
        && register58 == HoldoffWritten(old(register58), IsTrue(value))
        && BitOf(register58, TriggerHoldoffBit) == IsTrue(value)
        && (forall k: nat :: k != TriggerHoldoffBit ==> BitOf(register58, k) == BitOf(old(register58), k))
        && accessLog == old(accessLog) + [Read(TriggerHoldoffRegister), Write(TriggerHoldoffRegister, register58)]
    {
      if !HoldoffSupported(identity.firmware) {
        return Fail(UnsupportedFirmware(TriggerHoldoffMinFirmware, identity.firmware));
      }
      accessLog := accessLog + [Read(TriggerHoldoffRegister)];
      var currentValue := register58;
      var isTrue := value == PythonBool(true);
      var newValue := HoldoffWritten(currentValue, isTrue);
      HoldoffWrittenBits(currentValue, isTrue);
      forall k: nat | k != TriggerHoldoffBit
        ensures BitOf(newValue, k) == BitOf(currentValue, k)
      {
        HoldoffWrittenOtherBits(currentValue, isTrue, k);
      }
      accessLog := accessLog + [Write(TriggerHoldoffRegister, newValue)];
      register58 := newValue;
      outcome := Pass;
    }
  }
}
