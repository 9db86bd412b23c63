/** The auto-tracker's memory layout table: for every trackable location, the
    save-data bytes and bit masks that say whether it has been checked. */
module Layout {
  import opened MapElements
  import opened Wrappers

  /** One `(address, mask)` pair: the bits `mask` of the snapshot byte at
      `addr`. The source declares pairs as `u32`; every mask fits in a byte. */
  datatype Read = Read(addr: nat, mask: bv8)

  /** The first read covers save data `[0, 0x400)`. */
  const FirstWindowSize: nat := 0x400
  /** The second read covers save data `[0x410, 0x412)`. */
  const SecondWindowStart: nat := 0x410
  const SecondWindowSize: nat := 2
  /** Length of an assembled snapshot, indexed by save-data address. */
  const SnapshotSize: nat := SecondWindowStart + SecondWindowSize

  predicate InWindow(addr: nat) {
    addr < FirstWindowSize || SecondWindowStart <= addr < SnapshotSize
  }

  function Lookup(k: MapElementKind): Option<seq<Read>> {
    match k
    case BLANK => None
    case SUPERBUNNYU => Some([Read(0x1F0, 0x30)])
    case SPIRALU => Some([Read(0x1FC, 0x10)])
    case SPECM => Some([Read(0x1D5, 0x04)])
    case PARAM => Some([Read(0x1DE, 0xF0), Read(0x1DF, 0x01)])
    case PARAL => Some([Read(0x1FE, 0x30)])
    case HOOKSHOT => Some([Read(0x078, 0xF0)])
    case HYPE => Some([Read(0x23C, 0xF0), Read(0x23D, 0x04)])
    case MIRESHED => Some([Read(0x21A, 0x30)])
    case LIBRARY => Some([Read(0x410, 0x80)])
    case SICKKID => Some([Read(0x410, 0x04)])
    case AGINAH => Some([Read(0x214, 0x10)])
    case DAM => Some([Read(0x216, 0x10)])
    case ICEROD => Some([Read(0x240, 0x10)])
    case HAMMERPEGS => Some([Read(0x24F, 0x04)])
    case MMC => Some([Read(0x246, 0xF0), Read(0x247, 0x04)])
    case WATERFALL => Some([Read(0x228, 0x30)])
    case PFAIRY => Some([Read(0x22C, 0x30)])
    case MIMIC => Some([Read(0x218, 0x10)])
    case CHESTGAME => Some([Read(0x20D, 0x04)])
    case CHICKEN => Some([Read(0x210, 0x10)])
    case BONK => Some([Read(0x248, 0x10)])
    case BREWERY => Some([Read(0x20C, 0x10)])
    case CHECKERBOARD => Some([Read(0x24D, 0x02)])
    case BLINDS => Some([Read(0x23A, 0xF0), Read(0x23B, 0x01)])
    case SPIKE => Some([Read(0x22E, 0x10)])
    case CAVE45 => Some([Read(0x237, 0x04)])
    case GYL => Some([Read(0x237, 0x02)])
    case CHOUSE => Some([Read(0x238, 0x10)])
    case KINGSTOMB => Some([Read(0x226, 0x10)])
    case SAHA => Some([Read(0x20A, 0x70), Read(0x410, 0x10)])
    case POTION => Some([Read(0x411, 0x20)])
    case SMITH => Some([Read(0x411, 0x04)])
    case POWDER => Some([Read(0x411, 0x80)])
    case BOMBOSTABLET => Some([Read(0x411, 0x02)])
    case ETHERTABLET => Some([Read(0x411, 0x01)])
    case BOTTLEMERCHANT => Some([Read(0x3C9, 0x02)])
    case DESERTLEDGE => Some([Read(0x2B0, 0x40)])
    case FLOATINGISLAND => Some([Read(0x285, 0x40)])
    case HOBO => Some([Read(0x3C9, 0x01)])
    case KINGZORA => Some([Read(0x410, 0x02)])
    case ZORALEDGE => Some([Read(0x301, 0x40)])
    case LAKEHYLIAISLAND => Some([Read(0x2B5, 0x40)])
    case PED => Some([Read(0x300, 0x40)])
    case MUSHROOM => Some([Read(0x411, 0x10)])
    case OLDMAN => Some([Read(0x410, 0x01)])
    case SPECROCK => Some([Read(0x283, 0x40)])
    case SUNKENTREASURE => Some([Read(0x2BB, 0x40)])
    case BUMPERCAVELEDGE => Some([Read(0x2CA, 0x40)])
    case MAZERACE => Some([Read(0x2A8, 0x40)])
    case DIGGAME => Some([Read(0x2E8, 0x40)])
    case STUMPY => Some([Read(0x410, 0x08)])
    case FLUTESPOT => Some([Read(0x2AA, 0x40)])
    case PURPLECHEST => Some([Read(0x3C9, 0x10)])
    case PYRAMID => Some([Read(0x2DB, 0x40)])
    case CATFISH => Some([Read(0x410, 0x20)])
  }

  const Table: map<MapElementKind, seq<Read>> := map k | Lookup(k).Some? :: Lookup(k).value

  ghost predicate WellFormed(pairs: seq<Read>) {
    && |pairs| > 0
    && forall i :: 0 <= i < |pairs| ==> pairs[i].mask != 0 && InWindow(pairs[i].addr)
  }

  lemma TableWellFormed()
    ensures forall k :: k in Table ==> WellFormed(Table[k])
  {
    forall k | k in Table ensures WellFormed(Table[k]) {
      EntryWellFormed(k);
    }
  }

  /** One location's entry, checked on its own. */
  lemma EntryWellFormed(k: MapElementKind)
    ensures Lookup(k).None? <==> k == BLANK
    ensures Lookup(k).Some? ==> WellFormed(Lookup(k).value)
  {
    match k
    case BLANK =>
    case SUPERBUNNYU =>
    case SPIRALU =>
    case SPECM =>
    case PARAM =>
    case PARAL =>
    case HOOKSHOT =>
    case HYPE =>
    case MIRESHED =>
    case LIBRARY =>
    case SICKKID =>
    case AGINAH =>
    case DAM =>
    case ICEROD =>
    case HAMMERPEGS =>
    case MMC =>
    case WATERFALL =>
    case PFAIRY =>
    case MIMIC =>
    case CHESTGAME =>
    case CHICKEN =>
    case BONK =>
    case BREWERY =>
    case CHECKERBOARD =>
    case BLINDS =>
    case SPIKE =>
    case CAVE45 =>
    case GYL =>
    case CHOUSE =>
    case KINGSTOMB =>
    case SAHA =>
    case POTION =>
    case SMITH =>
    case POWDER =>
    case BOMBOSTABLET =>
    case ETHERTABLET =>
    case BOTTLEMERCHANT =>
    case DESERTLEDGE =>
    case FLOATINGISLAND =>
    case HOBO =>
    case KINGZORA =>
    case ZORALEDGE =>
    case LAKEHYLIAISLAND =>
    case PED =>
    case MUSHROOM =>
    case OLDMAN =>
    case SPECROCK =>
    case SUNKENTREASURE =>
    case BUMPERCAVELEDGE =>
    case MAZERACE =>
    case DIGGAME =>
    case STUMPY =>
    case FLUTESPOT =>
    case PURPLECHEST =>
    case PYRAMID =>
    case CATFISH =>
  }
}
