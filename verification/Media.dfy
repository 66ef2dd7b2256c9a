/** Bytes in DDR, sectors on the SSD, and the reference "plain copy" the write engine is compared with. */
module Media {

  const SECTOR_BYTES: nat := 512
  const U16_MAX: nat := 0xFFFF
  const U32_MAX: nat := 0xFFFF_FFFF
  const U64_MAX: nat := 0xFFFF_FFFF_FFFF_FFFF

  type Byte = b: int | 0 <= b < 256
  type Sector = seq<Byte>

  /** DDR as the hardware sees it: one byte per bus address. */
  type Ddr = nat -> Byte

  /** The SSD: one sector per LBA. */
  type Disk = nat -> Sector

  /** `bytes_to_sectors`: sectors needed for `bytes`. */
  function BytesToSectors(bytes: nat): (sectors: nat)
    ensures bytes <= sectors * SECTOR_BYTES < bytes + SECTOR_BYTES
  {
    bytes / SECTOR_BYTES + (if bytes % SECTOR_BYTES != 0 then 1 else 0)
  }

  /** The sector held in DDR at bus address `addr`. */
  function SectorAt(ddr: Ddr, addr: nat): (s: Sector)
    ensures |s| == SECTOR_BYTES
    ensures forall i :: 0 <= i < SECTOR_BYTES ==> s[i] == ddr(addr + i)
  {
    seq(SECTOR_BYTES, i requires 0 <= i < SECTOR_BYTES => ddr(addr + i))
  }

  function StoreSector(disk: Disk, lba: nat, s: Sector): Disk {
    (l: nat) => if l == lba then s else disk(l)
  }

  /** The plain copy: one sector after the other, lowest LBA first. */
  function CopySectors(disk: Disk, lba: nat, sectors: nat, ddr: Ddr, addr: nat): Disk
    decreases sectors
  {
    if sectors == 0 then disk
    else CopySectors(StoreSector(disk, lba, SectorAt(ddr, addr)), lba + 1, sectors - 1, ddr, addr + SECTOR_BYTES)
  }

  /** What the plain copy leaves at every LBA. */
  lemma {:induction false} CopySectorsAt(disk: Disk, lba: nat, sectors: nat, ddr: Ddr, addr: nat, l: nat)
    ensures CopySectors(disk, lba, sectors, ddr, addr)(l) ==
            if lba <= l < lba + sectors then SectorAt(ddr, addr + (l - lba) * SECTOR_BYTES) else disk(l)
    decreases sectors
  {
    if sectors != 0 {
      var next := StoreSector(disk, lba, SectorAt(ddr, addr));
      CopySectorsAt(next, lba + 1, sectors - 1, ddr, addr + SECTOR_BYTES, l);
      if lba < l < lba + sectors {
        assert addr + SECTOR_BYTES + (l - (lba + 1)) * SECTOR_BYTES == addr + (l - lba) * SECTOR_BYTES;
      }
    }
  }

  /** A sector depends on its own 512 bytes only. */
  lemma SectorUntouched(ddr: Ddr, ddr': Ddr, addr: nat)
    requires forall a: nat :: addr <= a < addr + SECTOR_BYTES ==> ddr'(a) == ddr(a)
    ensures SectorAt(ddr', addr) == SectorAt(ddr, addr)
  {
  }
}
