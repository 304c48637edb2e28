/** The device descriptor and its transformation into the finished device
    model (src/mcu.rs). */
module Device {
  import opened Ints
  import opened PinModel
  import opened PinRegistry
  import opened PackageModel
  import opened MemoryModel
  import opened PeripheralModel

  datatype Platform = STM32(family: string, line: string) | STM8 | AVR | MSP430

  datatype ARMCore = CortexM0 | CortexM3 | CortexM4 | CortexM7

  datatype Core = ARM(arm: ARMCore) | AVR | STM8 | MSP430

  datatype Frequency = MHz(mhz: u16)

  /** One on-chip block listed in the descriptor. */
  datatype IP = IP(configFile: string, name: string)

  /** The descriptor as deserialised (`MCU`). */
  datatype MCU = MCU(
    memory: seq<Memory>,
    frequency: Frequency,
    core: Core,
    name: string,
    package: Package,
    ips: seq<IP>,
    pins: seq<Pin>,
    platform: Platform)

  /** The finished device model (`MCUConf`). */
  datatype MCUConf = MCUConf(
    memory: seq<Memory>,
    frequency: Frequency,
    platform: Platform,
    core: Core,
    name: string,
    package: Package,
    peripherals: seq<Peripheral>,
    middlewares: seq<string>,
    components: seq<string>,
    pins: Pins)

  /** The name that marks the GPIO block, whose pins live in the registry
      rather than in a peripheral record. */
  const GpioName: string := "GPIO"

  function IpNames(ips: seq<IP>): (names: seq<string>)
    ensures |names| == |ips|
    ensures forall i :: 0 <= i < |ips| ==> names[i] == ips[i].name
  {
    seq(|ips|, i requires 0 <= i < |ips| => ips[i].name)
  }

  /** How many blocks of the descriptor are named "GPIO". */
  function GpioCount(ips: seq<IP>): nat {
    multiset(IpNames(ips))[GpioName]
  }

  /** Counting GPIO blocks one block at a time. */
  lemma GpioCountCons(ips: seq<IP>)
    requires |ips| > 0
    ensures GpioCount(ips) == (if ips[0].name == GpioName then 1 else 0) + GpioCount(ips[1..])
  {
    assert IpNames(ips) == [ips[0].name] + IpNames(ips[1..]);
  }

  /** The record a non-GPIO block becomes. */
  function PeripheralOf(ip: IP): Peripheral {
    Setup(NewPeripheral(ip.name, ip.configFile))
  }

  /** `MCU::process_peripherals`: one disabled, unconfigured peripheral per
      block not named "GPIO", in descriptor order. */
  function ProcessPeripherals(ips: seq<IP>): (ps: seq<Peripheral>)
    ensures |ps| == |ips| - GpioCount(ips)
    ensures forall k :: 0 <= k < |ps| ==> ps[k].name != GpioName && !ps[k].enabled && !ps[k].configured
    decreases |ips|
  {
    if |ips| == 0 then []
    else
      GpioCountCons(ips);
      var head := if ips[0].name == GpioName then [] else [PeripheralOf(ips[0])];
      head + ProcessPeripherals(ips[1..])
  }

  /** Processing is a per-block map: the peripherals of two descriptor
      lists laid end to end are theirs laid end to end, so the output keeps
      the descriptor's order. */
  lemma {:induction false} ProcessPeripheralsAppend(a: seq<IP>, b: seq<IP>)
    ensures ProcessPeripherals(a + b) == ProcessPeripherals(a) + ProcessPeripherals(b)
    decreases |a|
  {
    if |a| > 0 {
      var head := if a[0].name == GpioName then [] else [PeripheralOf(a[0])];
      assert (a + b)[0] == a[0];
      assert (a + b)[1..] == a[1..] + b;
      assert ProcessPeripherals(a + b) == head + ProcessPeripherals(a[1..] + b);
      assert ProcessPeripherals(a) == head + ProcessPeripherals(a[1..]);
      ProcessPeripheralsAppend(a[1..], b);
    } else {
      assert a + b == b;
    }
  }

  /** Every block not named "GPIO" has its peripheral in the output. */
  lemma {:induction false} ProcessPeripheralsCovers(ips: seq<IP>, i: nat)
    requires i < |ips| && ips[i].name != GpioName
    ensures NewPeripheral(ips[i].name, ips[i].configFile) in ProcessPeripherals(ips)
    decreases |ips|
  {
    if i > 0 {
      assert ips[1..][i - 1] == ips[i];
      ProcessPeripheralsCovers(ips[1..], i - 1);
    }
  }

  /** A single block yields its record, or nothing when it is the GPIO block. */
  lemma ProcessPeripheralsSingle(ip: IP)
    ensures ProcessPeripherals([ip]) ==
      if ip.name == GpioName then [] else [NewPeripheral(ip.name, ip.configFile)]
  {
    assert [ip][1..] == [];
  }

  /** `MCU::finish`: every descriptor field moves across unchanged, the
      blocks become peripherals, the pins are wrapped in the registry in
      their order, and there are no middlewares or components yet. */
  function Finish(m: MCU): (c: MCUConf)
    ensures c.memory == m.memory && c.frequency == m.frequency
    ensures c.platform == m.platform && c.core == m.core
    ensures c.name == m.name && c.package == m.package
    ensures c.pins.pins == m.pins
    ensures c.peripherals == ProcessPeripherals(m.ips)
    ensures |c.peripherals| == |m.ips| - GpioCount(m.ips)
    ensures c.middlewares == [] && c.components == []
  {
    MCUConf(
      m.memory,
      m.frequency,
      m.platform,
      m.core,
      m.name,
      m.package,
      ProcessPeripherals(m.ips),
      [],
      [],
      Pins(m.pins))
  }

  /** `MCUConf::get_pins`. */
  function GetPins(c: MCUConf): Pins {
    c.pins
  }

  /** `MCUConf::get_peripherals`. */
  function GetPeripherals(c: MCUConf): seq<Peripheral> {
    c.peripherals
  }

  /** Reading the finished model back gives the descriptor's pins, in order,
      and one peripheral per non-GPIO block. */
  lemma FinishAccessors(m: MCU)
    ensures GetPins(Finish(m)).pins == m.pins
    ensures |GetPeripherals(Finish(m))| == |m.ips| - GpioCount(m.ips)
  {
  }
}
