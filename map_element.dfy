/** The kinds of map elements a tracker row or map icon can stand for.
    Only the kinds that the auto-tracker's memory layout table names are
    listed, plus BLANK, the placeholder kind the row layout skips. */
module MapElements {

  datatype MapElementKind =
    | BLANK
    | SUPERBUNNYU | SPIRALU | SPECM | PARAM | PARAL | HOOKSHOT | HYPE | MIRESHED
    | LIBRARY | SICKKID | AGINAH | DAM | ICEROD | HAMMERPEGS | MMC | WATERFALL
    | PFAIRY | MIMIC | CHESTGAME | CHICKEN | BONK | BREWERY | CHECKERBOARD | BLINDS
    | SPIKE | CAVE45 | GYL | CHOUSE | KINGSTOMB | SAHA | POTION | SMITH | POWDER
    | BOMBOSTABLET | ETHERTABLET | BOTTLEMERCHANT | DESERTLEDGE | FLOATINGISLAND
    | HOBO | KINGZORA | ZORALEDGE | LAKEHYLIAISLAND | PED | MUSHROOM | OLDMAN
    | SPECROCK | SUNKENTREASURE | BUMPERCAVELEDGE | MAZERACE | DIGGAME | STUMPY
    | FLUTESPOT | PURPLECHEST | PYRAMID | CATFISH
}
