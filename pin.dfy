/**
 * The typed pin handle: the input and output configuration markers with their
 * canonical values, the declared pin ids with their reset modes, and the pin
 * handle, whose mode changes only through the register control layer.
 *
 * A marker type of the source becomes a datatype constructor here, and its
 * associated `DYN` constant a `Dyn()` function. The handle's type parameters
 * become its `id` and `mode` fields; an operation the source defines only for
 * one mode family requires that family.
 */
module Pin {
  import opened DynPin
  import opened Reg

  /** The input-configuration markers. */
  datatype InputConfig = Floating | PullDown | PullUp | BusKeep
  {
    /** The marker's canonical input configuration, which names this marker back. */
    function Dyn(): (d: DynInput)
      ensures InputConfigOf(d) == this
    {
      match this
      case Floating => DynInput.Floating
      case PullDown => DynInput.PullDown
      case PullUp => DynInput.PullUp
      case BusKeep => DynInput.BusKeep
    }
  }

  /** The marker whose canonical value is `d`. */
  function InputConfigOf(d: DynInput): InputConfig
  {
    match d
    case Floating => InputConfig.Floating
    case PullDown => InputConfig.PullDown
    case PullUp => InputConfig.PullUp
    case BusKeep => InputConfig.BusKeep
  }

  /** Each input marker has its own canonical value, and every input configuration has a marker. */
  lemma InputConfigDynIsBijective(c: InputConfig, d: DynInput)
    ensures InputConfigOf(c.Dyn()) == c
    ensures InputConfigOf(d).Dyn() == d
  {
  }

  /** The output-configuration markers. */
  datatype OutputConfig = PushPull | Readable
  {
    /** The marker's canonical output configuration, which names this marker back. */
    function Dyn(): (d: DynOutput)
      ensures OutputConfigOf(d) == this
    {
      match this
      case PushPull => DynOutput.PushPull
      case Readable => DynOutput.Readable
    }
  }

  /** The marker whose canonical value is `d`. */
  function OutputConfigOf(d: DynOutput): OutputConfig
  {
    match d
    case PushPull => OutputConfig.PushPull
    case Readable => OutputConfig.Readable
  }

  /** Each output marker has its own canonical value, and every output configuration has a marker. */
  lemma OutputConfigDynIsBijective(c: OutputConfig, d: DynOutput)
    ensures OutputConfigOf(c.Dyn()) == c
    ensures OutputConfigOf(d).Dyn() == d
  {
  }

  /** The pin modes a typed handle can be in: `Input<C>` and `Output<C>`. */
  datatype PinMode = Input(inputConfig: InputConfig) | Output(outputConfig: OutputConfig)
  {
    /** The mode's canonical value: the same family, with the marker's configuration. */
    function Dyn(): (m: DynPinMode)
      ensures m.Input? <==> this.Input?
      ensures m.Output? <==> this.Output?
      ensures m.Input? ==> m.input == inputConfig.Dyn()
      ensures m.Output? ==> m.output == outputConfig.Dyn()
    {
      match this
      case Input(c) => DynPinMode.Input(c.Dyn())
      case Output(c) => DynPinMode.Output(c.Dyn())
    }
  }

  /**
   * Two typed modes have the same canonical value exactly when they are the
   * same mode, so comparing canonical values decides whether a transition
   * changes the mode.
   */
  lemma PinModeDynIsInjective(m: PinMode, n: PinMode)
    ensures m.Dyn() == n.Dyn() <==> m == n
  {
    if m.Dyn() == n.Dyn() {
      match m {
        case Input(c) => InputConfigDynIsBijective(c, c.Dyn());
        case Output(c) => OutputConfigDynIsBijective(c, c.Dyn());
      }
    }
  }

  /**
   * Every input and every output canonical mode is the `DYN` value of some
   * typed mode, so a typed handle can reach each of them.
   */
  lemma PinModeCoversInputAndOutput(m: DynPinMode)
    requires m.Input? || m.Output?
    ensures exists pm: PinMode :: pm.Dyn() == m
  {
    if m.Input? {
      InputConfigDynIsBijective(InputConfigOf(m.input), m.input);
      assert PinMode.Input(InputConfigOf(m.input)).Dyn() == m;
    } else {
      OutputConfigDynIsBijective(OutputConfigOf(m.output), m.output);
      assert PinMode.Output(OutputConfigOf(m.output)).Dyn() == m;
    }
  }

  /**
   * A typed mode is never Disabled or Function, so the register layer always
   * has fields for it; its function-select word aborts only at offsets 8 and 9.
   */
  lemma PinModeHasFields(id: DynPinId, m: PinMode)
    ensures ModeFieldsOf(m.Dyn()).Ok?
    ensures FselWord(id, m.Dyn()).Ok? <==> FselOffset(id) < 8
  {
  }

  /** The declared pin ids. */
  datatype PinId = Gpio0 | Gpio42
  {
    /** The id's pin identity: a pin the register block has level and function-select registers for. */
    function Dyn(): (id: DynPinId)
      ensures Addressable(id)
    {
      match this
      case Gpio0 => DynPinId(0)
      case Gpio42 => DynPinId(42)
    }

    /** The mode the pin is in after a reset: an input, with a pull resistor. */
    function Reset(): (m: PinMode)
      ensures m.Input?
      ensures m.inputConfig.Dyn() == DynInput.PullUp || m.inputConfig.Dyn() == DynInput.PullDown
    {
      match this
      case Gpio0 => PinMode.Input(InputConfig.PullUp)
      case Gpio42 => PinMode.Input(InputConfig.PullDown)
    }
  }

  /**
   * Pin 0 resets to a pulled-up input; pin 42 resets to a pulled-down input,
   * in bank 1 and function-select register 4. Both are addressable and their
   * function-select offsets do not overflow. No two declared ids name the
   * same pin.
   */
  lemma DeclaredPins()
    ensures Gpio0.Dyn().num == 0 && Gpio0.Reset().Dyn() == DynPinMode.Input(DynInput.PullUp)
    ensures Gpio42.Dyn().num == 42 && Gpio42.Reset().Dyn() == DynPinMode.Input(DynInput.PullDown)
    ensures Gpio42.Dyn().Group() == 1 && Gpio42.Dyn().FselGroup() == 4
    ensures forall p: PinId :: Addressable(p.Dyn()) && FselOffset(p.Dyn()) < 8
    ensures forall p: PinId, q: PinId :: p.Dyn() == q.Dyn() <==> p == q
  {
  }

  /**
   * A handle on one pin: its identity, the mode it is in, and the register
   * block it drives. At most one handle per pin is an obligation of whoever
   * creates handles; the model does not check it.
   */
  class Pin {
    const id: DynPinId
    var mode: PinMode
    const gpio: RegisterBlock

    ghost predicate Valid()
      reads this, gpio
    {
      gpio.Valid() && Addressable(id)
    }

    /** Creating a handle for a declared pin issues no register traffic. */
    constructor (pin: PinId, mode: PinMode, gpio: RegisterBlock)
      requires gpio.Valid()
      ensures Valid()
      ensures this.id == pin.Dyn() && this.mode == mode && this.gpio == gpio
    {
      this.id := pin.Dyn();
      this.mode := mode;
      this.gpio := gpio;
    }

    /**
     * Moves the handle to `target`: nothing is written when the canonical
     * modes agree, otherwise exactly one function-select register write.
     */
    method IntoMode(target: PinMode) returns (r: Result<()>)
      requires Valid()
      modifies this, gpio
      ensures Valid()
      ensures mode == if r.Ok? then target else old(mode)
      ensures r.Panic? ==> r.fault == ShiftOverflow && unchanged(gpio)
      ensures target == old(mode) ==> r.Ok? && unchanged(gpio)
      ensures target != old(mode) ==> (r.Ok? <==> FselOffset(id) < 8)
      ensures target != old(mode) && r.Ok? ==>
        var w := Write(GpFsel(id.FselGroup() as int), FselWord(id, target.Dyn()).value);
        gpio.Snapshot() == old(gpio.Snapshot())[w.reg := w.word] && gpio.log == old(gpio.log) + [w]
    {
      PinModeDynIsInjective(target, mode);
      PinModeHasFields(id, target);
      if target.Dyn() != mode.Dyn() {
        r := gpio.ChangeMode(id, target.Dyn());
        if r.Panic? {
          return;
        }
      } else {
        r := Ok(());
      }
      mode := target;
    }

    /** Drives an output pin high: its mask alone goes to the set register of its bank. */
    method SetHigh()
      requires Valid() && mode.Output?
      modifies gpio
      ensures Valid()
      ensures var w := Write(GpSet(id.Group() as int), Mask(id));
        gpio.Snapshot() == old(gpio.Snapshot())[w.reg := w.word] && gpio.log == old(gpio.log) + [w]
    {
      var r := gpio.WritePin(id, true);
      assert r.Ok?;
    }

    /** Drives an output pin low: its mask alone goes to the clear register of its bank. */
    method SetLow()
      requires Valid() && mode.Output?
      modifies gpio
      ensures Valid()
      ensures var w := Write(GpClr(id.Group() as int), Mask(id));
        gpio.Snapshot() == old(gpio.Snapshot())[w.reg := w.word] && gpio.log == old(gpio.log) + [w]
    {
      var r := gpio.WritePin(id, false);
      assert r.Ok?;
    }

    /** Whether an input pin reads high: its bit in the level register of its bank. */
    function IsHigh(): (high: bool)
      reads this, gpio
      requires Valid() && mode.Input?
      ensures high == Bit(gpio.gplev[id.Group() as int], BankBit(id))
    {
      gpio.ReadPin(id).value == true
    }

    /** Whether an input pin reads low: always the negation of `IsHigh`. */
    function IsLow(): (low: bool)
      reads this, gpio
      requires Valid() && mode.Input?
      ensures low == !IsHigh()
      ensures low == !Bit(gpio.gplev[id.Group() as int], BankBit(id))
    {
      gpio.ReadPin(id).value == false
    }
  }

  /**
   * Two transitions of one handle to the same target: the second one writes
   * nothing, so the pair writes at most one register word.
   */
  method IntoModeTwice(pin: Pin, target: PinMode) returns (first: Result<()>, second: Result<()>)
    requires pin.Valid()
    modifies pin, pin.gpio
    ensures first.Ok? ==> second.Ok? && pin.mode == target
    ensures first.Ok? && target == old(pin.mode) ==> pin.gpio.log == old(pin.gpio.log)
    ensures first.Ok? && target != old(pin.mode) ==>
      FselWord(pin.id, target.Dyn()).Ok? &&
      pin.gpio.log == old(pin.gpio.log) +
        [Write(GpFsel(pin.id.FselGroup() as int), FselWord(pin.id, target.Dyn()).value)]
  {
    first := pin.IntoMode(target);
    if first.Ok? {
      second := pin.IntoMode(target);
    } else {
      second := first;
    }
  }

  /**
   * Pin 0 from its reset mode: switching to a push-pull output writes code 1
   * at offset 0 of function-select register 0, and driving it high writes
   * 1 to the set register of bank 0.
   */
  method Gpio0Scenario() returns (fsel0: u32, set0: u32)
    ensures fsel0 == 1 && set0 == 1
  {
    var gpio := new RegisterBlock(0, 0);
    var pin := new Pin(Gpio0, Gpio0.Reset(), gpio);
    assert pin.mode.Dyn() == DynPinMode.Input(DynInput.PullUp);
    var r := pin.IntoMode(PinMode.Output(OutputConfig.PushPull));
    assert gpio.log == [Write(GpFsel(0), 1)];
    assert gpio.Snapshot()[GpFsel(0)] == 1;
    pin.SetHigh();
    assert gpio.log == [Write(GpFsel(0), 1), Write(GpSet(0), 1)];
    assert gpio.Snapshot()[GpFsel(0)] == 1 && gpio.Snapshot()[GpSet(0)] == 1;
    fsel0 := gpio.gpfsel[0];
    set0 := gpio.gpset[0];
  }

  /**
   * Pin 42 from its reset mode: switching to a readable output writes
   * 1 << 2 into function-select register 4, and driving it low writes
   * 1 << 10 to the clear register of bank 1.
   */
  method Gpio42Scenario() returns (fsel4: u32, clr1: u32)
    ensures fsel4 == 4 && clr1 == 1024
  {
    var gpio := new RegisterBlock(0, 0);
    var pin := new Pin(Gpio42, Gpio42.Reset(), gpio);
    var r := pin.IntoMode(PinMode.Output(OutputConfig.Readable));
    assert gpio.Snapshot()[GpFsel(4)] == 4;
    pin.SetLow();
    assert gpio.Snapshot()[GpFsel(4)] == 4 && gpio.Snapshot()[GpClr(1)] == 1024;
    assert gpio.log == [Write(GpFsel(4), 4), Write(GpClr(1), 1024)];
    fsel4 := gpio.gpfsel[4];
    clr1 := gpio.gpclr[1];
  }
}
