/** Physical pins: the five pin kinds, the alternate-function state of an
    I/O pin, and the builder that makes a pin from its descriptor type
    string (src/pin.rs). */
module PinModel {
  import opened Wrappers
  import opened Ints
  import Seqs

  /** Where a pin sits: numbered around the edge, or by row and column of a
      ball grid. */
  datatype Position = Linear(index: u16) | Grid(row: u8, col: u8)

  /** The alternate-function state of an I/O pin. `reset` is true while the
      pin is in its hardware-default state; `current`, when present, is the
      index of the selected entry of `signals`. */
  datatype IOPin = IOPin(reset: bool, alias: string, signals: seq<string>, current: Option<nat>)

  /** The selection indexes an actual signal. The builder and
      `SelectSignal` keep this; a deserialised pin need not satisfy it. */
  predicate SelectionInRange(p: IOPin) {
    p.current.Some? ==> p.current.value < |p.signals|
  }

  datatype Pin =
    | NC(name: string, position: Position)
    | IO(name: string, position: Position, params: IOPin)
    | BOOT(name: string, position: Position)
    | NRST(name: string, position: Position)
    | POWER(name: string, position: Position)

  /** `IOPin::reset`: back to the default state; the selection is kept. */
  function Reset(p: IOPin): (q: IOPin)
    ensures q.reset
    ensures q.alias == p.alias && q.signals == p.signals && q.current == p.current
  {
    p.(reset := true)
  }

  /** `IOPin::set_label`: the label is free-form and independent of the rest. */
  function SetLabel(p: IOPin, alias: string): (q: IOPin)
    ensures q.alias == alias
    ensures q.reset == p.reset && q.signals == p.signals && q.current == p.current
  {
    p.(alias := alias)
  }

  /** `IOPin::select_signal`: selects the first signal spelled exactly
      `signal` and answers true; when there is none, clears the selection
      and answers false. */
  function SelectSignal(p: IOPin, signal: string): (r: (bool, IOPin))
    ensures r.0 <==> signal in p.signals
    ensures r.1.reset == p.reset && r.1.alias == p.alias && r.1.signals == p.signals
    ensures SelectionInRange(r.1)
    ensures r.0 ==> r.1.current.Some? && p.signals[r.1.current.value] == signal
    ensures r.0 ==> forall k :: 0 <= k < r.1.current.value ==> p.signals[k] != signal
    ensures !r.0 ==> r.1.current == None
  {
    match Seqs.FirstWhere(p.signals, (s: string) => s == signal)
    case Some(idx) => (true, p.(current := Some(idx)))
    case None => (false, p.(current := None))
  }

  /** `IOPin::current_signal`: the selected signal's name. The source indexes
      the signal list directly, so an out-of-range selection would panic. */
  function CurrentSignal(p: IOPin): (r: Option<string>)
    requires SelectionInRange(p)
    ensures r.Some? <==> p.current.Some?
    ensures r.Some? ==> r.value in p.signals
    ensures p.current.Some? ==> r == Some(p.signals[p.current.value])
  {
    match p.current
    case Some(idx) => Some(p.signals[idx])
    case None => None
  }

  /** After a selection the current signal is the one asked for, or nothing
      when it was not offered, whatever was selected before. */
  lemma SelectThenCurrentSignal(p: IOPin, signal: string)
    ensures CurrentSignal(SelectSignal(p, signal).1) ==
      if signal in p.signals then Some(signal) else None
  {
  }

  /** The unit tests: selecting an offered signal answers true and makes it
      current; selecting a missing one answers false and clears the earlier
      selection. */
  lemma SelectSignalTestCases()
    ensures var p := IOPin(true, "", ["Input", "Output", "EXTI"], Some(1));
      SelectSignal(p, "Output").0 && CurrentSignal(SelectSignal(p, "Output").1) == Some("Output")
    ensures var p := IOPin(true, "", ["Input", "Output", "EXTI"], Some(0));
      !SelectSignal(p, "Missing").0 && CurrentSignal(SelectSignal(p, "Missing").1) == None
  {
  }

  /** Selecting the same signal twice changes nothing the second time. */
  lemma SelectSignalIdempotent(p: IOPin, signal: string)
    ensures SelectSignal(SelectSignal(p, signal).1, signal) == SelectSignal(p, signal)
  {
  }

  /** `Pin::name`: every kind carries a name. */
  function Name(pin: Pin): string {
    match pin
    case NC(name, _) => name
    case IO(name, _, _) => name
    case BOOT(name, _) => name
    case NRST(name, _) => name
    case POWER(name, _) => name
  }

  /** `Pin::position`: every kind carries a position. */
  function PositionOf(pin: Pin): Position {
    match pin
    case NC(_, position) => position
    case IO(_, position, _) => position
    case BOOT(_, position) => position
    case NRST(_, position) => position
    case POWER(_, position) => position
  }

  /** Every pin kind answers `name` and `position` with its own fields. */
  lemma NameAndPositionAreFields(pin: Pin)
    ensures Name(pin) == pin.name && PositionOf(pin) == pin.position
  {
  }

  /** `Pin::params`: only an I/O pin has alternate-function state. */
  function Params(pin: Pin): (r: Option<IOPin>)
    ensures r.Some? <==> pin.IO?
    ensures r.Some? ==> r.value == pin.params
  {
    match pin
    case IO(_, _, params) => Some(params)
    case _ => None
  }

  /** `Pin::params_mut` followed by an update of the state it lends out; a
      pin without such state is left as it is. */
  function UpdateParams(pin: Pin, update: IOPin -> IOPin): (r: Pin)
    ensures Name(r) == Name(pin) && PositionOf(r) == PositionOf(pin)
    ensures r.IO? <==> pin.IO?
    ensures Params(r) == if pin.IO? then Some(update(pin.params)) else None
    ensures !pin.IO? ==> r == pin
    ensures pin.IO? ==> r == pin.(params := update(pin.params))
  {
    match pin
    case IO(name, position, params) => IO(name, position, update(params))
    case _ => pin
  }

  /** The descriptor record a pin is built from: its type string, where it
      sits, its name, and optionally its signals with a requested selection. */
  datatype PinBuilder = PinBuilder(
    pinType: string,
    position: Position,
    name: string,
    signals: Option<seq<string>>,
    current: Option<nat>)

  /** `PinBuilder::new`: no signals and no selection yet. */
  function NewBuilder(pinType: string, position: Position, name: string): PinBuilder {
    PinBuilder(pinType, position, name, None, None)
  }

  /** `PinBuilder::signals`: supplies the signal list and a requested index. */
  function WithSignals(b: PinBuilder, signals: seq<string>, current: nat): PinBuilder {
    b.(signals := Some(signals), current := Some(current))
  }

  /** `PinBuilder::finish`. The type string picks the pin kind ("NC", "BOOT",
      "Reset", "Power", "I/O"; anything else makes a not-connected pin). An
      I/O pin starts in its default state with no label and the supplied
      signals; the requested selection survives only if it is in range. */
  function Finish(b: PinBuilder): (pin: Pin)
    ensures Name(pin) == b.name && PositionOf(pin) == b.position
    ensures pin.IO? <==> b.pinType == "I/O"
    ensures pin.BOOT? <==> b.pinType == "BOOT"
    ensures pin.NRST? <==> b.pinType == "Reset"
    ensures pin.POWER? <==> b.pinType == "Power"
    ensures pin.NC? <==> b.pinType !in {"I/O", "BOOT", "Reset", "Power"}
    ensures pin.IO? ==> pin.params.reset && pin.params.alias == ""
    ensures pin.IO? ==> pin.params.signals == (if b.signals.Some? then b.signals.value else [])
    ensures pin.IO? ==>
      (pin.params.current.Some? <==>
        b.current.Some? && b.signals.Some? && b.current.value < |b.signals.value|)
    ensures pin.IO? && pin.params.current.Some? ==> pin.params.current == b.current
    ensures pin.IO? ==> SelectionInRange(pin.params)
  {
    var current :=
      match b.current
      case Some(idx) =>
        (match b.signals
         case Some(signals) => if idx < |signals| then Some(idx) else None
         case None => None)
      case None => None;
    if b.pinType == "NC" then NC(b.name, b.position)
    else if b.pinType == "BOOT" then BOOT(b.name, b.position)
    else if b.pinType == "Reset" then NRST(b.name, b.position)
    else if b.pinType == "Power" then POWER(b.name, b.position)
    else if b.pinType == "I/O" then
      IO(b.name, b.position, IOPin(
        true,
        "",
        match b.signals
        case Some(s) => s
        case None => [],
        current))
    else NC(b.name, b.position)
  }

  /** An I/O pin built without signals has none and selects nothing; a
      requested index beyond the supplied signals is dropped. */
  lemma FinishSelectionExamples(position: Position, name: string)
    ensures Finish(NewBuilder("I/O", position, name)).params == IOPin(true, "", [], None)
    ensures Finish(WithSignals(NewBuilder("I/O", position, name), ["Input", "Output"], 0)).params
      == IOPin(true, "", ["Input", "Output"], Some(0))
    ensures Finish(WithSignals(NewBuilder("I/O", position, name), ["Input", "Output"], 2)).params
      == IOPin(true, "", ["Input", "Output"], None)
  {
  }
}
