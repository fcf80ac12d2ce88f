/**
 * The register control layer: the 3-bit function-select codes, the mode to
 * register-field mapping, the single-bit pin mask, and the three operations
 * that turn a pin id into register traffic on the GPIO register block.
 *
 * A Rust panic (`todo!()`, `unreachable!()`, a `u8` shift by 8 or more) is
 * modelled as a `Panic` result that leaves every register untouched: in the
 * source each of them fires before the register write.
 */
module Reg {
  import opened DynPin

  /** Rust's `u32`: a register word. */
  type u32 = bv32

  /** Why a register operation aborts. */
  datatype Fault =
    | Unimplemented  // `todo!()` for the Disabled and Function mode families
    | ShiftOverflow  // `u8 << offset` with offset 8 or 9
    | Unreachable    // `unreachable!()` for a group with no register

  datatype Result<T> = Ok(value: T) | Panic(fault: Fault)

  /** Bit `k` of a register word. */
  function Bit(w: u32, k: u32): bool
    requires k < 32
  {
    (w >> k) & 1 == 1
  }

  /** The position of a pin's bit in the level, set and clear registers of its bank. */
  function BankBit(id: DynPinId): (k: u32)
    ensures k < 32
  {
    (id.num % 32) as u32
  }

  /** The offset `change_mode` shifts a pin's function-select code by. */
  function FselOffset(id: DynPinId): (offset: u8)
    ensures offset < 10
  {
    id.num % 10
  }

  /** The function-select choices of a pin. */
  datatype FunctionSelect =
    | Input
    | Output
    | AlternateFunction0
    | AlternateFunction1
    | AlternateFunction2
    | AlternateFunction3
    | AlternateFunction4
    | AlternateFunction5

  /** The 3-bit code of a function-select choice. */
  function FselCode(f: FunctionSelect): (code: u8)
    ensures code < 8
  {
    match f
    case Input => 0
    case Output => 1
    case AlternateFunction0 => 4
    case AlternateFunction1 => 5
    case AlternateFunction2 => 6
    case AlternateFunction3 => 7
    case AlternateFunction4 => 3
    case AlternateFunction5 => 2
  }

  /** Decoding of a 3-bit code back to its function-select choice. */
  function FunctionSelectOf(code: u8): (f: FunctionSelect)
    requires code < 8
  {
    match code
    case 0 => FunctionSelect.Input
    case 1 => FunctionSelect.Output
    case 2 => AlternateFunction5
    case 3 => AlternateFunction4
    case 4 => AlternateFunction0
    case 5 => AlternateFunction1
    case 6 => AlternateFunction2
    case _ => AlternateFunction3
  }

  /** Decoding undoes encoding, so the encoding is injective. */
  lemma FselCodeDecodes(f: FunctionSelect)
    ensures FunctionSelectOf(FselCode(f)) == f
  {
  }

  /** Encoding undoes decoding, so all eight 3-bit codes are used. */
  lemma FselCodeEncodes(code: u8)
    requires code < 8
    ensures FselCode(FunctionSelectOf(code)) == code
  {
  }

  /** Every 3-bit value is the code of some function-select choice. */
  lemma FselCodeIsOnto(code: u8)
    requires code < 8
    ensures exists f: FunctionSelect :: FselCode(f) == code
  {
    FselCodeEncodes(code);
  }

  /** Two choices with the same code are the same choice. */
  lemma FselCodeInjective(f: FunctionSelect, g: FunctionSelect)
    ensures FselCode(f) == FselCode(g) <==> f == g
  {
    if FselCode(f) == FselCode(g) {
      FselCodeDecodes(f);
      FselCodeDecodes(g);
    }
  }

  /** The register fields a mode sets. */
  datatype ModeFields = ModeFields(fsel: FunctionSelect)

  /**
   * The register fields of a mode: every input is the Input choice, every
   * output the Output choice, whatever the sub-configuration; the Disabled
   * and Function families are not implemented.
   */
  function ModeFieldsOf(mode: DynPinMode): (r: Result<ModeFields>)
    ensures r.Ok? <==> mode.Input? || mode.Output?
    ensures r.Panic? ==> r.fault == Unimplemented
    ensures mode.Input? ==> r == Ok(ModeFields(FunctionSelect.Input))
    ensures mode.Output? ==> r == Ok(ModeFields(FunctionSelect.Output))
  {
    match mode
    case Input(_) => Ok(ModeFields(FunctionSelect.Input))
    case Output(_) => Ok(ModeFields(FunctionSelect.Output))
    case Disabled(_) => Panic(Unimplemented)
    case Function(_) => Panic(Unimplemented)
  }

  /** Two modes of the same input or output family get the same fields. */
  lemma ModeFieldsIgnoreSubConfig(a: DynPinMode, b: DynPinMode)
    requires Tag(a) == Tag(b)
    requires a.Input? || a.Output?
    ensures ModeFieldsOf(a) == ModeFieldsOf(b)
    ensures FselCode(ModeFieldsOf(a).value.fsel) == if a.Input? then 0 else 1
  {
  }

  /** The single-bit mask of a pin inside its 32-bit bank register. */
  function Mask(id: DynPinId): (mask: u32)
    ensures forall k: u32 :: k < 32 ==> (Bit(mask, k) <==> k == BankBit(id))
  {
    (1 as u32) << BankBit(id)
  }

  /** Pins n and n + 32 share a mask but not a bank. */
  lemma MaskRepeatsEveryBank(n: u8)
    requires n < 224
    ensures Mask(DynPinId(n + 32)) == Mask(DynPinId(n))
    ensures DynPinId(n + 32).Group() != DynPinId(n).Group()
  {
  }

  /**
   * The word `change_mode` writes into the function-select register: the
   * 3-bit code shifted left by `num % 10` bits, computed as a `u8` and then
   * widened. A `u8` shift by 8 or 9 overflows.
   */
  function FselWord(id: DynPinId, mode: DynPinMode): (r: Result<u32>)
    ensures r.Panic? && r.fault == Unimplemented <==> mode.Disabled? || mode.Function?
    ensures r.Panic? && r.fault == ShiftOverflow <==>
              (mode.Input? || mode.Output?) && FselOffset(id) >= 8
    ensures r.Panic? ==> r.fault != Unreachable
    ensures r.Ok? && mode.Input? ==> r.value == 0
    ensures r.Ok? && mode.Output? ==>
              forall k: u32 :: k < 32 ==> (Bit(r.value, k) <==> k == FselOffset(id) as u32)
  {
    match ModeFieldsOf(mode)
    case Panic(f) => Panic(f)
    case Ok(fields) =>
      var offset := FselOffset(id);
      if offset >= 8 then Panic(ShiftOverflow)
      else Ok((FselCode(fields.fsel) << offset) as u32)
  }

  /** Pin 5 (function-select register 0, offset 5): Output writes 32, Input writes 0. */
  lemma FselWordOfPinFive(o: DynOutput, i: DynInput)
    ensures DynPinId(5).FselGroup() == 0
    ensures FselWord(DynPinId(5), DynPinMode.Output(o)) == Ok(32)
    ensures FselWord(DynPinId(5), DynPinMode.Input(i)) == Ok(0)
  {
  }

  /** The twelve GPIO registers, by bank or index. */
  datatype Register = GpLev(bank: nat) | GpSet(bank: nat) | GpClr(bank: nat) | GpFsel(index: nat)

  /** One register write: this exact word went to this register. */
  datatype Write = Write(reg: Register, word: u32)

  /** The register block an id can be used with: its groups have registers. */
  predicate Addressable(id: DynPinId)
  {
    id.Group() < 2 && id.FselGroup() < 6
  }

  /**
   * The GPIO register block: two level, two set, two clear and six
   * function-select registers, with a log of every write made to them.
   */
  class RegisterBlock {
    var gplev: seq<u32>
    var gpset: seq<u32>
    var gpclr: seq<u32>
    var gpfsel: seq<u32>
    ghost var log: seq<Write>

    ghost predicate Valid()
      reads this
    {
      |gplev| == 2 && |gpset| == 2 && |gpclr| == 2 && |gpfsel| == 6
    }

    /** All twelve registers by name. */
    ghost function Snapshot(): map<Register, u32>
      reads this
      requires Valid()
    {
      map[GpLev(0) := gplev[0], GpLev(1) := gplev[1],
          GpSet(0) := gpset[0], GpSet(1) := gpset[1],
          GpClr(0) := gpclr[0], GpClr(1) := gpclr[1],
          GpFsel(0) := gpfsel[0], GpFsel(1) := gpfsel[1], GpFsel(2) := gpfsel[2],
          GpFsel(3) := gpfsel[3], GpFsel(4) := gpfsel[4], GpFsel(5) := gpfsel[5]]
    }

    /** A block whose level registers read `lev0` and `lev1`, with nothing written yet. */
    constructor (lev0: u32, lev1: u32)
      ensures Valid()
      ensures gplev == [lev0, lev1] && gpset == [0, 0] && gpclr == [0, 0]
      ensures gpfsel == [0, 0, 0, 0, 0, 0] && log == []
    {
      gplev := [lev0, lev1];
      gpset := [0, 0];
      gpclr := [0, 0];
      gpfsel := [0, 0, 0, 0, 0, 0];
      log := [];
    }

    /**
     * The level of a pin: its mask bit in the level register of its bank;
     * a bank other than 0 and 1 is unreachable.
     */
    function ReadPin(id: DynPinId): (r: Result<bool>)
      reads this
      requires Valid()
      ensures r.Ok? <==> id.Group() < 2
      ensures r.Panic? ==> r.fault == Unreachable
      ensures r.Ok? ==> r.value == Bit(gplev[id.Group() as int], BankBit(id))
    {
      var mask := Mask(id);
      match id.Group()
      case 0 => Ok(gplev[0] & mask != 0)
      case 1 => Ok(gplev[1] & mask != 0)
      case _ => Panic(Unreachable)
    }

    /**
     * Drives a pin high (`bit`) or low: the pin's mask alone is written to
     * the set or clear register of its bank, replacing the word there.
     */
    method WritePin(id: DynPinId, bit: bool) returns (r: Result<()>)
      requires Valid()
      modifies this
      ensures Valid()
      ensures r.Ok? <==> id.Group() < 2
      ensures r.Panic? ==> r.fault == Unreachable && unchanged(this)
      ensures r.Ok? ==>
        var w := Write(if bit then GpSet(id.Group() as int) else GpClr(id.Group() as int), Mask(id));
        Snapshot() == old(Snapshot())[w.reg := w.word] && log == old(log) + [w]
    {
      var mask := Mask(id);
      match id.Group()
      case 0 =>
        if bit {
          gpset := gpset[0 := mask];
          log := log + [Write(GpSet(0), mask)];
        } else {
          gpclr := gpclr[0 := mask];
          log := log + [Write(GpClr(0), mask)];
        }
        r := Ok(());
      case 1 =>
        if bit {
          gpset := gpset[1 := mask];
          log := log + [Write(GpSet(1), mask)];
        } else {
          gpclr := gpclr[1 := mask];
          log := log + [Write(GpClr(1), mask)];
        }
        r := Ok(());
      case _ =>
        r := Panic(Unreachable);
    }

    /**
     * Switches a pin to `mode`: the word `FselWord` computes replaces the
     * whole function-select register of the pin's group; a group beyond the
     * sixth register is unreachable.
     */
    method ChangeMode(id: DynPinId, mode: DynPinMode) returns (r: Result<()>)
      requires Valid()
      modifies this
      ensures Valid()
      ensures r.Ok? <==> FselWord(id, mode).Ok? && id.FselGroup() < 6
      ensures r.Panic? ==> unchanged(this)
      ensures r.Panic? ==>
        r.fault == if FselWord(id, mode).Panic? then FselWord(id, mode).fault else Unreachable
      ensures r.Ok? ==>
        var w := Write(GpFsel(id.FselGroup() as int), FselWord(id, mode).value);
        Snapshot() == old(Snapshot())[w.reg := w.word] && log == old(log) + [w]
    {
      var word := FselWord(id, mode);
      if word.Panic? {
        return Panic(word.fault);
      }
      var fsel := word.value;
      var g := id.FselGroup();
      if g < 6 {
        gpfsel := gpfsel[g as int := fsel];
        log := log + [Write(GpFsel(g as int), fsel)];
        r := Ok(());
      } else {
        r := Panic(Unreachable);
      }
    }
  }

  /**
   * A mock of the hardware, not of the code: a write of `mask` to a set
   * (`bit`) or clear register raises or lowers exactly the level bits
   * written as 1.
   */
  function LevelAfter(lev: u32, bit: bool, mask: u32): u32
  {
    if bit then lev | mask else lev & !mask
  }

  /** Under the mock, the level of a pin reads back what was written to it. */
  lemma LevelRoundTrip(id: DynPinId, lev: u32, bit: bool)
    ensures Bit(LevelAfter(lev, bit, Mask(id)), BankBit(id)) == bit
  {
    if bit {
      BitOfOr(lev, Mask(id), BankBit(id));
    } else {
      BitOfAndNot(lev, Mask(id), BankBit(id));
    }
  }

  /** Under the mock, writing one pin leaves the level of every other pin of its bank alone. */
  lemma LevelWriteIsDisjoint(id: DynPinId, other: DynPinId, lev: u32, bit: bool)
    requires other.Group() == id.Group() && other != id
    ensures Bit(LevelAfter(lev, bit, Mask(id)), BankBit(other)) == Bit(lev, BankBit(other))
  {
    OtherPinOfBankHasOtherBit(id, other);
    MaskMissesOtherBits(id, BankBit(other));
    LevelAfterKeepsUnmaskedBit(lev, bit, Mask(id), BankBit(other));
  }

  /** Under the mock, a write leaves every level bit outside its mask alone. */
  lemma LevelAfterKeepsUnmaskedBit(lev: u32, bit: bool, mask: u32, k: u32)
    requires k < 32 && !Bit(mask, k)
    ensures Bit(LevelAfter(lev, bit, mask), k) == Bit(lev, k)
  {
    if bit {
      BitOfOr(lev, mask, k);
    } else {
      BitOfAndNot(lev, mask, k);
    }
  }

  /** Two different pins of one bank sit at different bits. */
  lemma OtherPinOfBankHasOtherBit(id: DynPinId, other: DynPinId)
    requires other.Group() == id.Group() && other != id
    ensures BankBit(other) != BankBit(id)
  {
  }

  lemma MaskMissesOtherBits(id: DynPinId, k: u32)
    requires k < 32 && k != BankBit(id)
    ensures !Bit(Mask(id), k)
  {
  }

  lemma BitOfOr(a: u32, b: u32, k: u32)
    requires k < 32
    ensures Bit(a | b, k) == (Bit(a, k) || Bit(b, k))
  {
  }

  lemma BitOfAndNot(a: u32, b: u32, k: u32)
    requires k < 32
    ensures Bit(a & !b, k) == (Bit(a, k) && !Bit(b, k))
  {
  }

  /** The 3-bit function-select field of pin slot `slot` (0..9) in a register word. */
  function FieldAt(word: u32, slot: u32): (field: u32)
    requires slot < 10
    ensures field < 8
  {
    (word >> (3 * slot)) & 7
  }

  /**
   * The evidently intended function-select word: the 3-bit code placed at
   * bits 3 * offset .. 3 * offset + 2 of the pin's register, computed in 32
   * bits so that no offset overflows. The other nine fields and the two
   * unused top bits are 0.
   */
  function IntendedFselWord(id: DynPinId, mode: DynPinMode): (r: Result<u32>)
    ensures r.Ok? <==> mode.Input? || mode.Output?
    ensures r.Panic? ==> r.fault == Unimplemented
    ensures r.Ok? ==>
      FieldAt(r.value, FselOffset(id) as u32) == FselCode(ModeFieldsOf(mode).value.fsel) as u32
    ensures r.Ok? ==>
      forall slot: u32 :: slot < 10 && slot != FselOffset(id) as u32 ==> FieldAt(r.value, slot) == 0
    ensures r.Ok? ==> r.value >> 30 == 0
  {
    match ModeFieldsOf(mode)
    case Panic(f) => Panic(f)
    case Ok(fields) => Ok((FselCode(fields.fsel) as u32) << (3 * FselOffset(id) as u32))
  }

  /**
   * The word as written puts the Output code into the pin's own 3-bit field
   * only at offset 0; at offsets 8 and 9 it aborts.
   */
  lemma FselWordFieldCorrectOnlyAtOffsetZero(id: DynPinId, o: DynOutput)
    ensures (FselWord(id, DynPinMode.Output(o)).Ok? &&
             FieldAt(FselWord(id, DynPinMode.Output(o)).value, FselOffset(id) as u32) == 1)
        <==> FselOffset(id) == 0
  {
  }

  /**
   * Pin 1 to an output: the word as written is 2, which reads as Input for
   * pin 1 and as AlternateFunction5 for pin 0, where the intended word is 8;
   * pin 8 aborts.
   */
  lemma FselWordMisplacesPinOne(o: DynOutput)
    ensures FselWord(DynPinId(1), DynPinMode.Output(o)) == Ok(2)
    ensures FieldAt(2, 1) == FselCode(FunctionSelect.Input) as u32
    ensures FieldAt(2, 0) == FselCode(FunctionSelect.AlternateFunction5) as u32
    ensures FselWord(DynPinId(8), DynPinMode.Output(o)) == Panic(ShiftOverflow)
    ensures IntendedFselWord(DynPinId(1), DynPinMode.Output(o)) == Ok(8)
  {
  }

  /**
   * The evidently intended register update: the pin's own field takes the
   * mode's code and the other nine fields, with the two unused top bits,
   * keep what `word` held, as a read-modify-write of the register would.
   */
  function IntendedFselUpdate(word: u32, id: DynPinId, mode: DynPinMode): (r: Result<u32>)
    ensures r.Ok? <==> mode.Input? || mode.Output?
    ensures r.Panic? ==> r.fault == Unimplemented
    ensures r.Ok? ==>
      FieldAt(r.value, FselOffset(id) as u32) == FselCode(ModeFieldsOf(mode).value.fsel) as u32
    ensures r.Ok? ==>
      forall slot: u32 :: slot < 10 && slot != FselOffset(id) as u32 ==> FieldAt(r.value, slot) == FieldAt(word, slot)
    ensures r.Ok? ==> r.value >> 30 == word >> 30
  {
    match ModeFieldsOf(mode)
    case Panic(f) => Panic(f)
    case Ok(fields) =>
      var slot, code := FselOffset(id) as u32, FselCode(fields.fsel) as u32;
      UpdateKeepsOtherFields(word, slot, code);
      Ok(UpdateField(word, slot, code))
  }

  /** `word` with field `slot` cleared and set to `code`. */
  function UpdateField(word: u32, slot: u32, code: u32): u32
    requires slot < 10
  {
    (word & !((7 as u32) << (3 * slot))) | (code << (3 * slot))
  }

  /** Updating one field sets that field, keeps every other field and the top bits. */
  lemma UpdateKeepsOtherFields(word: u32, slot: u32, code: u32)
    requires slot < 10 && code < 8
    ensures FieldAt(UpdateField(word, slot, code), slot) == code
    ensures forall t: u32 :: t < 10 && t != slot ==> FieldAt(UpdateField(word, slot, code), t) == FieldAt(word, t)
    ensures UpdateField(word, slot, code) >> 30 == word >> 30
  {
    forall t: u32 | t < 10
      ensures FieldAt(UpdateField(word, slot, code), t) == if t == slot then code else FieldAt(word, t)
    {
      FieldOfUpdate(word, slot, code, t);
    }
  }

  /** The effect of one field update on one field. */
  lemma FieldOfUpdate(word: u32, slot: u32, code: u32, t: u32)
    requires slot < 10 && code < 8 && t < 10
    ensures FieldAt(UpdateField(word, slot, code), t) == if t == slot then code else FieldAt(word, t)
  {
  }

  /**
   * Pin 0 to an output, then pin 1 to an input: the second write replaces
   * the whole of function-select register 0, so pin 0's field reads Input
   * again, where the intended update leaves it Output.
   */
  method NeighbourResetScenario() returns (before: u32, after: u32)
    ensures FieldAt(before, 0) == FselCode(FunctionSelect.Output) as u32
    ensures FieldAt(after, 0) == FselCode(FunctionSelect.Input) as u32
    ensures IntendedFselUpdate(before, DynPinId(1), DynPinMode.Input(DynInput.Floating)).Ok?
    ensures FieldAt(IntendedFselUpdate(before, DynPinId(1), DynPinMode.Input(DynInput.Floating)).value, 0)
            == FselCode(FunctionSelect.Output) as u32
  {
    var gpio := new RegisterBlock(0, 0);
    var r := gpio.ChangeMode(DynPinId(0), DynPinMode.Output(DynOutput.PushPull));
    assert gpio.Snapshot()[GpFsel(0)] == 1;
    before := gpio.gpfsel[0];
    r := gpio.ChangeMode(DynPinId(1), DynPinMode.Input(DynInput.Floating));
    assert gpio.Snapshot()[GpFsel(0)] == 0;
    after := gpio.gpfsel[0];
  }
}
