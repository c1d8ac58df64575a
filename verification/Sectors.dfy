/** Sectors as revisions and recipes refer to them. */
module Sectors {
  const SECTOR_SIZE: nat := 65536

  datatype SectorRef = SectorRef(id: nat, root: nat, logicalLen: nat)
}
