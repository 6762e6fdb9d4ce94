/** The map-side half of the enhanced tile passage plugin: the terrain-tag test
    on a cell's stacked tiles, the plugin's own upper-layer passage test, and
    the replacement `checkPassage`. The map is read through the host's
    accessors: the tileset flag table, `allTiles(x, y)` (tile events first,
    then the layers from the top one down), `regionId(x, y)` and the map
    height. The host's original `checkPassage` is a parameter. */
module TilePassage {
  import opened Wrappers
  import opened TileConfig
  import opened TileFlags
  import opened WallScan

  /** `allTiles` always returns at least the four layer ids. */
  type TileStack = s: seq<int> | |s| >= 4 witness [0, 0, 0, 0]

  datatype GameMap = GameMap(
    flags: seq<bv16>,
    allTiles: (int, int) -> TileStack,
    region: (int, int) -> int,
    height: int)

  /** `_hasTag`: a cell whose first four tiles are all 0 has no tag; otherwise
      only the tag field of the fourth tile's flag word is compared. */
  predicate HasTag(m: GameMap, x: int, y: int, t: int)
    ensures HasTag(m, x, y, t) <==>
      var tiles := m.allTiles(x, y);
      && !(tiles[0] == 0 && tiles[1] == 0 && tiles[2] == 0 && tiles[3] == 0)
      && t % 0x10_0000 == TagField(FlagAt(m.flags, tiles[3]))
  {
    var tiles := m.allTiles(x, y);
    && !(tiles[0] == 0 && tiles[1] == 0 && tiles[2] == 0 && tiles[3] == 0)
    && TagMatches(FlagAt(m.flags, tiles[3]), t)
  }

  /** Column `x` of the map as a tag test on rows. */
  function Column(m: GameMap, x: int, t: int): int -> bool {
    (row: int) => HasTag(m, x, row, t)
  }

  /** The verdict of entry `k` of a tile stack in the upper-layer loop. */
  function Verdict(flags: seq<bv16>, tiles: seq<int>, bit: bv16, k: int): Option<bool>
    requires 0 <= k < |tiles|
  {
    LayerVerdict(FlagAt(flags, tiles[k]), bit)
  }

  /** Entries `from ..` up to `|tiles| - 3` have been looked at in order: the
      first deciding entry answers, and no deciding entry means blocked. */
  function NormalCheckFrom(flags: seq<bv16>, tiles: seq<int>, bit: bv16, from: nat): (r: bool)
    ensures r <==> (exists k :: from <= k < |tiles| - 2 && Verdict(flags, tiles, bit, k) == Some(true)
                      && forall j :: from <= j < k ==> Verdict(flags, tiles, bit, j).None?)
    decreases |tiles| - from
  {
    if from < |tiles| - 2 then
      match Verdict(flags, tiles, bit, from)
      case Some(b) => b
      case None =>
        var r := NormalCheckFrom(flags, tiles, bit, from + 1);
        if r then
          var k :| from + 1 <= k < |tiles| - 2 && Verdict(flags, tiles, bit, k) == Some(true)
            && forall j :: from + 1 <= j < k ==> Verdict(flags, tiles, bit, j).None?;
          assert forall j :: from <= j < k ==> Verdict(flags, tiles, bit, j).None?;
          r
        else
          r
    else
      false
  }

  /** `_normalCheckPassage`: only the entries before the last two of
      `allTiles` are consulted, entries with the star bit are skipped, and the
      first entry that decides gives the answer; if none decides the cell is
      blocked. */
  function NormalCheckPassage(m: GameMap, x: int, y: int, bit: bv16): (r: bool)
    ensures var tiles := m.allTiles(x, y);
      r <==> (exists k :: 0 <= k < |tiles| - 2 && Verdict(m.flags, tiles, bit, k) == Some(true)
                && forall j :: 0 <= j < k ==> Verdict(m.flags, tiles, bit, j).None?)
  {
    NormalCheckFrom(m.flags, m.allTiles(x, y), bit, 0)
  }

  /** For a single direction bit the first entry without the star bit decides:
      passable when its direction bit is clear. With every entry skipped the
      cell is blocked. */
  lemma NormalCheckSingleBit(m: GameMap, x: int, y: int, bit: bv16)
    requires SingleBit(bit)
    ensures var tiles := m.allTiles(x, y);
      NormalCheckPassage(m, x, y, bit) <==>
        (exists k :: 0 <= k < |tiles| - 2 && FlagAt(m.flags, tiles[k]) & 0x10 == 0
                 && FlagAt(m.flags, tiles[k]) & bit == 0
                 && forall j :: 0 <= j < k ==> FlagAt(m.flags, tiles[j]) & 0x10 != 0)
  {
    var tiles := m.allTiles(x, y);
    forall k | 0 <= k < |tiles|
      ensures Verdict(m.flags, tiles, bit, k).None? <==> FlagAt(m.flags, tiles[k]) & 0x10 != 0
      ensures FlagAt(m.flags, tiles[k]) & 0x10 == 0 ==>
        Verdict(m.flags, tiles, bit, k) == Some(FlagAt(m.flags, tiles[k]) & bit == 0)
    {
      SingleBitVerdict(FlagAt(m.flags, tiles[k]), bit);
    }
  }

  /** The last two entries of the tile stack never influence the plugin's own
      passage test. */
  lemma {:induction false} LastTwoIgnored(flags: seq<bv16>, tiles: seq<int>, tiles': seq<int>, bit: bv16, from: nat)
    requires |tiles| == |tiles'| >= 2
    requires tiles[..|tiles| - 2] == tiles'[..|tiles'| - 2]
    ensures NormalCheckFrom(flags, tiles, bit, from) == NormalCheckFrom(flags, tiles', bit, from)
    decreases |tiles| - from
  {
    if from < |tiles| - 2 {
      assert tiles[from] == tiles[..|tiles| - 2][from];
      assert tiles'[from] == tiles'[..|tiles'| - 2][from];
      LastTwoIgnored(flags, tiles, tiles', bit, from + 1);
    }
  }

  /** The region at a cell forces passage: it is in the star or the passable list. */
  predicate ForcedOpen(cfg: Config, region: int) {
    Listed(cfg.starIds, region) || Listed(cfg.passableIds, region)
  }

  /** The region at a cell forbids passage: it is in the impassable list and
      not forced open. */
  predicate ForcedShut(cfg: Config, region: int) {
    !ForcedOpen(cfg, region) && Listed(cfg.impassableIds, region)
  }

  /** The cell carries one of the three terrain tags the plugin handles. */
  predicate Tagged(cfg: Config, m: GameMap, x: int, y: int) {
    HasTag(m, x, y, cfg.topTag) || HasTag(m, x, y, cfg.frontTag) || HasTag(m, x, y, cfg.starTag)
  }

  function FrontWallAt(cfg: Config, m: GameMap, x: int, y: int): Wall {
    FrontWall(Column(m, x, cfg.frontTag), Column(m, x, cfg.topTag), y, m.height)
  }

  function TopWallAt(cfg: Config, m: GameMap, x: int, y: int): Wall {
    TopWall(Column(m, x, cfg.frontTag), Column(m, x, cfg.topTag), y, m.height)
  }

  /** The plugin's `checkPassage`. Region overrides come first (star and
      passable lists open the cell, the impassable list then shuts it, region
      0 never overrides); an untagged cell gets the host's answer unchanged; a
      star-tagged cell is open; a wall cell is open when the shared wall
      threshold forces it and otherwise takes the upper-layer bit test. */
  function CheckPassage(cfg: Config, m: GameMap, original: (int, int, bv16) -> bool, x: int, y: int, bit: bv16): (r: bool)
    ensures ForcedOpen(cfg, m.region(x, y)) ==> r
    ensures ForcedShut(cfg, m.region(x, y)) ==> !r
    ensures !ForcedOpen(cfg, m.region(x, y)) && !ForcedShut(cfg, m.region(x, y)) ==>
      && (!Tagged(cfg, m, x, y) ==> r == original(x, y, bit))
      && (HasTag(m, x, y, cfg.starTag) ==> r)
      && (!HasTag(m, x, y, cfg.starTag) && HasTag(m, x, y, cfg.frontTag) ==>
            r == (WallForced(Front, FrontWallAt(cfg, m, x, y), cfg.defWallHeight) || NormalCheckPassage(m, x, y, bit)))
      && (!HasTag(m, x, y, cfg.starTag) && !HasTag(m, x, y, cfg.frontTag) && HasTag(m, x, y, cfg.topTag) ==>
            r == (WallForced(Top, TopWallAt(cfg, m, x, y), cfg.defWallHeight) || NormalCheckPassage(m, x, y, bit)))
  {
    var region := m.region(x, y);
    if Listed(cfg.starIds, region) then true
    else if Listed(cfg.passableIds, region) then true
    else if Listed(cfg.impassableIds, region) then false
    else if !Tagged(cfg, m, x, y) then original(x, y, bit)
    else if HasTag(m, x, y, cfg.starTag) then true
    else if HasTag(m, x, y, cfg.frontTag) then
      var w := FrontWallAt(cfg, m, x, y);
      if w.upperTop == 0 then NormalCheckPassage(m, x, y, bit)
      else if w.lowerFront + 1 <= w.upperTop then NormalCheckPassage(m, x, y, bit)
      else true
    else
      var w := TopWallAt(cfg, m, x, y);
      if w.lowerFront == 0 then
        if w.upperTop + 1 <= cfg.defWallHeight then true else NormalCheckPassage(m, x, y, bit)
      else if w.upperTop + 1 <= w.lowerFront then true
      else NormalCheckPassage(m, x, y, bit)
  }

  /** A cell in region 0 is classified as if every region list were empty. */
  lemma RegionZeroNeverOverrides(cfg: Config, m: GameMap, original: (int, int, bv16) -> bool, x: int, y: int, bit: bv16)
    requires m.region(x, y) == 0
    ensures CheckPassage(cfg, m, original, x, y, bit)
      == CheckPassage(cfg.(starIds := [], higherIds := [], passableIds := [], impassableIds := []), m, original, x, y, bit)
  {
  }

  /** The higher-tile list only affects drawing, never passage. */
  lemma HigherIdsDoNotAffectPassage(cfg: Config, higherIds: seq<Entry>, m: GameMap, original: (int, int, bv16) -> bool, x: int, y: int, bit: bv16)
    ensures CheckPassage(cfg, m, original, x, y, bit) == CheckPassage(cfg.(higherIds := higherIds), m, original, x, y, bit)
  {
  }
}
