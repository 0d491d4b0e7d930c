/** Binary byte multiples, shared by the size parser and the block-device geometry. */
module ByteUnits {
  const KiB: nat := 1024
  const MiB: nat := 1024 * KiB
  const GiB: nat := 1024 * MiB
  const TiB: nat := 1024 * GiB
}
