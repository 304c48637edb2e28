/** Memory regions of a device (src/memory.rs). */
module MemoryModel {
  import opened Ints

  /** One addressable range: flash, EEPROM or RAM, each a start address and
      a size. */
  datatype Memory =
    | Flash(start: u32, size: u32)
    | Eeprom(start: u32, size: u32)
    | Ram(start: u32, size: u32)

  /** The end address fits in `u32`; otherwise the source's `start + size`
      overflows, which panics in a debug build. */
  predicate EndInRange(m: Memory) {
    m.start + m.size < 0x1_0000_0000
  }

  /** `Memory::start`, the same for every kind of region. */
  function Start(m: Memory): (r: u32)
    ensures r == m.start
  {
    match m
    case Flash(start, _) => start
    case Eeprom(start, _) => start
    case Ram(start, _) => start
  }

  /** `Memory::size`, the same for every kind of region. */
  function Size(m: Memory): (r: u32)
    ensures r == m.size
  {
    match m
    case Flash(_, size) => size
    case Eeprom(_, size) => size
    case Ram(_, size) => size
  }

  /** `Memory::end`: the first address past the region. */
  function End(m: Memory): (r: u32)
    requires EndInRange(m)
    ensures Start(m) <= r
    ensures r - Start(m) == Size(m)
  {
    match m
    case Flash(start, size) => start + size
    case Eeprom(start, size) => start + size
    case Ram(start, size) => start + size
  }

  /** The sample device's regions from the library's tests. */
  lemma SampleRegions()
    ensures End(Flash(0x0800_0000, 32)) == 0x0800_0020
    ensures End(Ram(0x2000_0000, 4)) == 0x2000_0004
  {
  }
}
