/** The Rust build manifest derived for a device (src/cargo.rs). */
module CargoManifest {
  import opened Ints
  import opened Device

  datatype CrateType = Binary | Library

  datatype SemVer = SemVer(major: u8, minor: u8, patch: u8)

  /** A crate the generated project depends on (`Dependency`). */
  datatype Dependency = Dependency(name: string, version: SemVer)

  datatype Cargo = Cargo(
    name: string,
    crateType: CrateType,
    version: SemVer,
    authors: seq<string>,
    dependencies: seq<Dependency>,
    target: string)

  /** `Cargo::set_target`: the Rust target triple for a core; cores without
      a Rust target get the empty string. */
  function SetTarget(core: Core): (triple: string)
    ensures core.ARM? ==> |triple| > 0
    ensures !core.ARM? ==> triple == ""
  {
    match core
    case ARM(arm) =>
      (match arm
       case CortexM0 => "thumbv6m-none-eabi"
       case CortexM3 => "thumbv7m-none-eabi"
       case CortexM4 => "thumbv7em-none-eabi"
       case CortexM7 => "thumbv7em-none-eabi")
    case AVR => ""
    case STM8 => ""
    case MSP430 => ""
  }

  /** The ARM architecture profile each Cortex-M core implements, written as
      Rust's target names spell it: Cortex-M0 is ARMv6-M, Cortex-M3 ARMv7-M,
      and Cortex-M4 and Cortex-M7 ARMv7E-M. */
  function ArchProfile(arm: ARMCore): string {
    match arm
    case CortexM0 => "v6m"
    case CortexM3 => "v7m"
    case CortexM4 => "v7em"
    case CortexM7 => "v7em"
  }

  /** Every ARM target is the bare-metal Thumb triple of the core's
      architecture profile, so cores share a target exactly when they share
      a profile. */
  lemma SetTargetFollowsProfile(arm: ARMCore)
    ensures SetTarget(ARM(arm)) == "thumb" + ArchProfile(arm) + "-none-eabi"
  {
  }

  /** Two ARM cores get the same target exactly when they implement the same
      architecture profile. */
  lemma SetTargetSharedByProfile(a: ARMCore, b: ARMCore)
    ensures SetTarget(ARM(a)) == SetTarget(ARM(b)) <==> ArchProfile(a) == ArchProfile(b)
  {
  }

  /** `Cargo::new`: an unnamed binary crate at version 0.1.0 with no authors
      or dependencies, targeting the device's core. */
  function NewCargo(core: Core): (c: Cargo)
    ensures c.name == "" && c.crateType == Binary
    ensures c.version == SemVer(0, 1, 0)
    ensures c.authors == [] && c.dependencies == []
    ensures c.target == SetTarget(core)
  {
    Cargo("", Binary, SemVer(0, 1, 0), [], [], SetTarget(core))
  }

  /** `Cargo::set_crate_name`: only the name changes. */
  function SetCrateName(c: Cargo, name: string): (d: Cargo)
    ensures d.name == name
    ensures d.(name := c.name) == c
  {
    c.(name := name)
  }

  /** `Cargo::add_crate`: the dependency goes last; the earlier ones and
      every other field stay as they were. */
  function AddCrate(c: Cargo, dependency: Dependency): (d: Cargo)
    ensures |d.dependencies| == |c.dependencies| + 1
    ensures d.dependencies[..|c.dependencies|] == c.dependencies
    ensures d.dependencies[|c.dependencies|] == dependency
    ensures d.(dependencies := c.dependencies) == c
  {
    c.(dependencies := c.dependencies + [dependency])
  }

  /** Adding crates one after another lists them in the order they were added. */
  lemma AddCrateOrder(c: Cargo, x: Dependency, y: Dependency)
    ensures AddCrate(AddCrate(c, x), y).dependencies == c.dependencies + [x, y]
  {
  }
}
