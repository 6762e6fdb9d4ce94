/** How the two halves of the enhanced tile passage plugin agree. When the map
    view (`_hasTag` over `allTiles`) and the tilemap view (`_tileHasTag` over
    the bottom layer) see the same terrain tags in a column, both classifiers
    measure the same wall and apply the same threshold, so a wall cell is
    walkable without a bit test exactly when it is drawn above characters. */
module TileClassifier {
  import opened TileConfig
  import opened TileFlags
  import opened WallScan
  import TilePassage
  import TileLayer

  /** The two views agree on the map height and on the three terrain tags on
      every map row of column `x`; neither scan reads any other row.
      `SameColumnFromData` derives this from the map data. */
  ghost predicate SameColumn(cfg: Config, m: TilePassage.GameMap, tm: TileLayer.Tilemap, x: int) {
    && m.height == tm.height
    && (forall row :: 0 <= row < m.height ==> TilePassage.HasTag(m, x, row, cfg.frontTag) == TileLayer.TileHasTag(tm, x, row, cfg.frontTag))
    && (forall row :: 0 <= row < m.height ==> TilePassage.HasTag(m, x, row, cfg.topTag) == TileLayer.TileHasTag(tm, x, row, cfg.topTag))
    && (forall row :: 0 <= row < m.height ==> TilePassage.HasTag(m, x, row, cfg.starTag) == TileLayer.TileHasTag(tm, x, row, cfg.starTag))
  }

  /** The two views agree on a column when they read the same flag table and
      height, on every map row `allTiles` holds no tile events (it is then the
      four layers from the top one down), and tile id 0 carries none of the
      three tags: the map-side all-zero guard then only hides a bottom tile
      that has no tag. */
  lemma SameColumnFromData(cfg: Config, m: TilePassage.GameMap, tm: TileLayer.Tilemap, x: int)
    requires m.flags == tm.flags && m.height == tm.height
    requires forall row :: 0 <= row < m.height ==>
      m.allTiles(x, row) == [tm.mapData(x, row, 3), tm.mapData(x, row, 2), tm.mapData(x, row, 1), tm.mapData(x, row, 0)]
    requires !TagMatches(FlagAt(tm.flags, 0), cfg.frontTag)
    requires !TagMatches(FlagAt(tm.flags, 0), cfg.topTag)
    requires !TagMatches(FlagAt(tm.flags, 0), cfg.starTag)
    ensures SameColumn(cfg, m, tm, x)
  {
  }

  /** Both views measure the same wall around a cell. */
  lemma SameWalls(cfg: Config, m: TilePassage.GameMap, tm: TileLayer.Tilemap, x: int, y: int)
    requires SameColumn(cfg, m, tm, x)
    requires 0 <= y < m.height
    ensures TilePassage.FrontWallAt(cfg, m, x, y) == TileLayer.FrontWallAt(cfg, tm, x, y)
    ensures TilePassage.TopWallAt(cfg, m, x, y) == TileLayer.TopWallAt(cfg, tm, x, y)
  {
    var front, top := TilePassage.Column(m, x, cfg.frontTag), TilePassage.Column(m, x, cfg.topTag);
    var front', top' := TileLayer.TileColumn(tm, x, cfg.frontTag), TileLayer.TileColumn(tm, x, cfg.topTag);
    forall k | 0 <= k < m.height
      ensures front(k) == front'(k) && top(k) == top'(k)
    {
      assert front(k) == TilePassage.HasTag(m, x, k, cfg.frontTag);
      assert top(k) == TilePassage.HasTag(m, x, k, cfg.topTag);
    }
    FrontWallsAgree(front, top, front', top', y, m.height);
    TopWallsAgree(front, top, front', top', y, m.height);
  }

  /** No region list mentions the cell, and no star region lies right below it. */
  predicate NoRegionReason(cfg: Config, m: TilePassage.GameMap, tm: TileLayer.Tilemap, x: int, y: int) {
    && !Listed(cfg.starIds, m.region(x, y))
    && !Listed(cfg.passableIds, m.region(x, y))
    && !Listed(cfg.impassableIds, m.region(x, y))
    && !Listed(cfg.higherIds, tm.region(x, y))
    && !Listed(cfg.starIds, tm.region(x, y))
    && !Listed(cfg.starIds, tm.region(x, y + 1))
  }

  /** On a tagged cell that no region overrides, the passage answer is "drawn
      above characters, or the upper-layer bit test passes". */
  lemma PassageIsLayerOrBits(cfg: Config, m: TilePassage.GameMap, tm: TileLayer.Tilemap,
                             original: (int, int, bv16) -> bool, x: int, y: int, bit: bv16)
    requires SameColumn(cfg, m, tm, x)
    requires 0 <= y < m.height
    requires NoRegionReason(cfg, m, tm, x, y)
    requires TilePassage.Tagged(cfg, m, x, y)
    ensures TilePassage.CheckPassage(cfg, m, original, x, y, bit)
      == (TileLayer.IsHigherTile(cfg, tm, x, y) || TilePassage.NormalCheckPassage(m, x, y, bit))
  {
    SameWalls(cfg, m, tm, x, y);
  }

  /** A cell drawn above characters because of its tags or a star region of
      its own is walkable, unless its region is listed as impassable. */
  lemma HigherImpliesPassable(cfg: Config, m: TilePassage.GameMap, tm: TileLayer.Tilemap,
                              original: (int, int, bv16) -> bool, x: int, y: int, bit: bv16)
    requires SameColumn(cfg, m, tm, x)
    requires 0 <= y < m.height
    requires m.region(x, y) == tm.region(x, y)
    requires !Listed(cfg.higherIds, tm.region(x, y)) && !Listed(cfg.starIds, tm.region(x, y + 1))
    requires !TilePassage.ForcedShut(cfg, m.region(x, y))
    ensures TileLayer.IsHigherTile(cfg, tm, x, y) ==> TilePassage.CheckPassage(cfg, m, original, x, y, bit)
  {
    SameWalls(cfg, m, tm, x, y);
  }
}
