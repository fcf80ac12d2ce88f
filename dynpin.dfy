/**
 * Value-level vocabulary of the GPIO core: the pin-mode tagged union and the
 * pin identity with its three derived register-group indices.
 */
module DynPin {

  /** Rust's `u8`: pin numbers and group indices are unsigned bytes. */
  type u8 = bv8

  /** Disabled configurations. */
  datatype DynDisabled = Floating | PullDown | PullUp | BusKeep

  /** Input configurations. */
  datatype DynInput = Floating | PullDown | PullUp | BusKeep

  /** Output configurations. */
  datatype DynOutput = PushPull | Readable

  /** Peripheral-function configurations. */
  datatype DynFunction = Spi | Xip | Uart | I2C | Pwm | Pio0 | Pio1 | Clock | UsbAux

  /** The canonical runtime value of a pin mode: a family tag and a sub-variant. */
  datatype DynPinMode =
    | Disabled(disabled: DynDisabled)
    | Input(input: DynInput)
    | Output(output: DynOutput)
    | Function(func: DynFunction)

  /** The family tag of a mode, numbered in declaration order. */
  function Tag(m: DynPinMode): (t: nat)
    ensures t < 4
  {
    match m
    case Disabled(_) => 0
    case Input(_) => 1
    case Output(_) => 2
    case Function(_) => 3
  }

  /** The position of a mode's sub-variant within its family, in declaration order. */
  function Variant(m: DynPinMode): (v: nat)
    ensures v < 9
  {
    match m
    case Disabled(d) =>
      (match d
       case Floating => 0 case PullDown => 1 case PullUp => 2 case BusKeep => 3)
    case Input(i) =>
      (match i
       case Floating => 0 case PullDown => 1 case PullUp => 2 case BusKeep => 3)
    case Output(o) =>
      (match o
       case PushPull => 0 case Readable => 1)
    case Function(f) =>
      (match f
       case Spi => 0 case Xip => 1 case Uart => 2 case I2C => 3 case Pwm => 4
       case Pio0 => 5 case Pio1 => 6 case Clock => 7 case UsbAux => 8)
  }

  /** Equality of modes is structural: same family tag and same sub-variant. */
  lemma ModeEqualityIsStructural(a: DynPinMode, b: DynPinMode)
    ensures a == b <==> Tag(a) == Tag(b) && Variant(a) == Variant(b)
  {
    if Tag(a) == Tag(b) && Variant(a) == Variant(b) {
      match a {
        case Disabled(d) =>
          assert b.Disabled?;
          match d {
            case Floating => assert b.disabled == DynDisabled.Floating;
            case PullDown => assert b.disabled == DynDisabled.PullDown;
            case PullUp => assert b.disabled == DynDisabled.PullUp;
            case BusKeep => assert b.disabled == DynDisabled.BusKeep;
          }
        case Input(i) =>
          assert b.Input?;
          match i {
            case Floating => assert b.input == DynInput.Floating;
            case PullDown => assert b.input == DynInput.PullDown;
            case PullUp => assert b.input == DynInput.PullUp;
            case BusKeep => assert b.input == DynInput.BusKeep;
          }
        case Output(o) =>
          assert b.Output?;
        case Function(f) =>
          assert b.Function?;
      }
    }
  }

  /** The identity of one physical pin. */
  datatype DynPinId = DynPinId(num: u8)
  {
    /** The level/set/clear register bank holding this pin: 32 pins per bank. */
    function Group(): (g: u8)
      ensures g as int * 32 <= num as int < (g as int + 1) * 32
    {
      num / 32
    }

    /** The function-select register holding this pin: 10 pins per register. */
    function FselGroup(): (g: u8)
      ensures g as int * 10 <= num as int < (g as int + 1) * 10
    {
      num / 10
    }

    /** The pull-control register holding this pin: 15 pins per register. */
    function PullGroup(): (g: u8)
      ensures g as int * 15 <= num as int < (g as int + 1) * 15
    {
      num / 15
    }
  }

  /** The bank index is 0 or 1 exactly for the pins below 64. */
  lemma GroupInRange(id: DynPinId)
    ensures id.Group() < 2 <==> id.num < 64
  {
  }

  /** The function-select index is one of 0..5 exactly for the pins below 60. */
  lemma FselGroupInRange(id: DynPinId)
    ensures id.FselGroup() < 6 <==> id.num < 60
  {
  }

  /**
   * A pin number is its function-select register times ten plus its offset
   * there, so every pin has its own (register, offset) pair: two ids that
   * agree on both are the same id.
   */
  lemma FselSlotIsUnique(a: DynPinId, b: DynPinId)
    ensures a.num == 10 * a.FselGroup() + a.num % 10
    ensures a.FselGroup() == b.FselGroup() && a.num % 10 == b.num % 10 <==> a == b
  {
  }

  /**
   * A pin number is its pull-control register times fifteen plus its offset
   * there; two ids that agree on both are the same id.
   */
  lemma PullSlotIsUnique(a: DynPinId, b: DynPinId)
    ensures a.num == 15 * a.PullGroup() + a.num % 15
    ensures a.PullGroup() == b.PullGroup() && a.num % 15 == b.num % 15 <==> a == b
  {
    PullSlotDecomposes(a);
    PullSlotDecomposes(b);
  }

  /** A pin number is its pull-control register times fifteen plus its offset. */
  lemma PullSlotDecomposes(id: DynPinId)
    ensures id.num == 15 * id.PullGroup() + id.num % 15
  {
  }

  /** Pins n and n + 32 sit in consecutive banks. */
  lemma GroupOfNextBank(n: u8)
    requires n < 32
    ensures DynPinId(n + 32).Group() == DynPinId(n).Group() + 1
    ensures DynPinId(n).Group() == 0
  {
  }
}
