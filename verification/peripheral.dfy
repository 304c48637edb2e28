/** The record kept for each enabled on-chip block (src/module/peripheral.rs). */
module PeripheralModel {

  /** A peripheral block: its name, the path of its configuration file, and
      whether it is enabled and configured. */
  datatype Peripheral = Peripheral(name: string, config: string, enabled: bool, configured: bool)

  /** `Peripheral::new`: a disabled, unconfigured record for the block. */
  function NewPeripheral(name: string, config: string): (p: Peripheral)
    ensures p.name == name && p.config == config
    ensures !p.enabled && !p.configured
  {
    Peripheral(name, config, false, false)
  }

  /** `Peripheral::setup` opens the configuration file and drops the result,
      so the record comes out as it went in. */
  function Setup(p: Peripheral): (q: Peripheral)
    ensures q == p
  {
    p
  }
}
