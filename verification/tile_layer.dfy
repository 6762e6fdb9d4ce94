/** The renderer-side half of the enhanced tile passage plugin: the terrain-tag
    test on a cell's bottom layer, the decision whether a cell is drawn above
    characters (`_isHigherTileNew`), and how `_paintTiles` splits a cell's
    pieces between the lower and the upper bitmap. The tilemap is read through
    `_readMapData(x, y, z)` (layers 0-3, shadow bits at 4), the flag table,
    the map's `regionId` and the map height. */
module TileLayer {
  import opened TileConfig
  import opened TileFlags
  import opened WallScan

  datatype Tilemap = Tilemap(
    flags: seq<bv16>,
    mapData: (int, int, int) -> int,
    region: (int, int) -> int,
    height: int)

  /** `_tileHasTag`: the tag field of the bottom layer's flag word, compared
      modulo 2^20; unlike the map-side test there is no all-zero guard. */
  predicate TileHasTag(tm: Tilemap, x: int, y: int, t: int)
    ensures TileHasTag(tm, x, y, t) <==> t % 0x10_0000 == TagField(FlagAt(tm.flags, tm.mapData(x, y, 0)))
  {
    TagMatches(FlagAt(tm.flags, tm.mapData(x, y, 0)), t)
  }

  function TileColumn(tm: Tilemap, x: int, t: int): int -> bool {
    (row: int) => TileHasTag(tm, x, row, t)
  }

  function FrontWallAt(cfg: Config, tm: Tilemap, x: int, y: int): Wall {
    FrontWall(TileColumn(tm, x, cfg.frontTag), TileColumn(tm, x, cfg.topTag), y, tm.height)
  }

  function TopWallAt(cfg: Config, tm: Tilemap, x: int, y: int): Wall {
    TopWall(TileColumn(tm, x, cfg.frontTag), TileColumn(tm, x, cfg.topTag), y, tm.height)
  }

  /** A region reason to draw the cell above characters: a star region on the
      cell below, or a star or higher-tile region on the cell itself. */
  predicate RaisedByRegion(cfg: Config, tm: Tilemap, x: int, y: int) {
    || Listed(cfg.starIds, tm.region(x, y + 1))
    || Listed(cfg.starIds, tm.region(x, y))
    || Listed(cfg.higherIds, tm.region(x, y))
  }

  /** `_isHigherTileNew`: region reasons first, then the star tag, then the
      shared wall threshold for a front cell and for a top cell; an untagged
      cell stays below characters. */
  function IsHigherTile(cfg: Config, tm: Tilemap, x: int, y: int): (r: bool)
    ensures RaisedByRegion(cfg, tm, x, y) ==> r
    ensures TileHasTag(tm, x, y, cfg.starTag) ==> r
    ensures !RaisedByRegion(cfg, tm, x, y) && !TileHasTag(tm, x, y, cfg.starTag) ==>
      && (TileHasTag(tm, x, y, cfg.frontTag) ==>
            r == WallForced(Front, FrontWallAt(cfg, tm, x, y), cfg.defWallHeight))
      && (!TileHasTag(tm, x, y, cfg.frontTag) && TileHasTag(tm, x, y, cfg.topTag) ==>
            r == WallForced(Top, TopWallAt(cfg, tm, x, y), cfg.defWallHeight))
      && (!TileHasTag(tm, x, y, cfg.frontTag) && !TileHasTag(tm, x, y, cfg.topTag) ==> !r)
  {
    if Listed(cfg.starIds, tm.region(x, y + 1)) then true
    else if Listed(cfg.starIds, tm.region(x, y)) then true
    else if Listed(cfg.higherIds, tm.region(x, y)) then true
    else if TileHasTag(tm, x, y, cfg.starTag) then true
    else if TileHasTag(tm, x, y, cfg.frontTag) then
      var w := FrontWallAt(cfg, tm, x, y);
      if w.upperTop == 0 then false
      else if w.lowerFront + 1 <= w.upperTop then false
      else true
    else if TileHasTag(tm, x, y, cfg.topTag) then
      var w := TopWallAt(cfg, tm, x, y);
      if w.lowerFront == 0 then w.upperTop + 1 <= cfg.defWallHeight
      else w.upperTop + 1 <= w.lowerFront
    else false
  }

  /** The passable and impassable lists only affect passage, never drawing. */
  lemma PassageIdsDoNotAffectLayer(cfg: Config, passableIds: seq<Entry>, impassableIds: seq<Entry>, tm: Tilemap, x: int, y: int)
    ensures IsHigherTile(cfg, tm, x, y) == IsHigherTile(cfg.(passableIds := passableIds, impassableIds := impassableIds), tm, x, y)
  {
  }

  /** One piece drawn for a cell. The source pushes numbers: a tile id, the
      negated shadow bits, and 10000 plus the id of the layer-1 tile above for
      a table edge. */
  datatype Piece =
    | Tile(layer: nat, id: int)
    | Shadow(bits: int)
    | TableEdge(tileAbove: int)

  /** The data `_paintTiles` reads for a cell. */
  datatype Cell = Cell(ids: seq<int>, shadowBits: int, tileAbove: int)

  datatype Layers = Layers(lower: seq<Piece>, upper: seq<Piece>)

  /** The host queries `_paintTiles` consults, as inputs. */
  datatype PaintHost = PaintHost(
    isTableTile: int -> bool,
    isShadowingTile: int -> bool,
    isOverpassPosition: (int, int) -> bool)

  /** The tile pieces of `ps` appear in increasing layer order. */
  ghost predicate LayersAscend(ps: seq<Piece>) {
    forall i, j :: 0 <= i < j < |ps| && ps[i].Tile? && ps[j].Tile? ==> ps[i].layer < ps[j].layer
  }

  /** The split of one cell: each of the four layer tiles lands in exactly one
      list, and only tiles go to the upper list; at an overpass position
      layers 2 and 3 are upper whatever `isHigher` says, and otherwise every
      layer follows `isHigher`. */
  function Partition(c: Cell, isHigher: bool, tableEdge: bool, overpass: bool): (p: Layers)
    requires |c.ids| == 4
    ensures forall k :: 0 <= k < 4 ==> (Tile(k, c.ids[k]) in p.lower) != (Tile(k, c.ids[k]) in p.upper)
    ensures forall k :: 0 <= k < 2 ==> (Tile(k, c.ids[k]) in p.upper <==> isHigher)
    ensures forall k :: 2 <= k < 4 ==> (Tile(k, c.ids[k]) in p.upper <==> overpass || isHigher)
    ensures forall q :: q in p.upper ==> q.Tile?
  {
    // The source pushes t0, t1 by `isHigher`, then the shadow and the
    // optional edge to the lower list, then t2, t3 to the upper list at an
    // overpass position and by `isHigher` elsewhere.
    var t0, t1, t2, t3 := Tile(0, c.ids[0]), Tile(1, c.ids[1]), Tile(2, c.ids[2]), Tile(3, c.ids[3]);
    var marks := if tableEdge then [Shadow(c.shadowBits), TableEdge(c.tileAbove)] else [Shadow(c.shadowBits)];
    if isHigher then Layers(marks, [t0, t1, t2, t3])
    else if overpass then Layers([t0, t1] + marks, [t2, t3])
    else Layers([t0, t1] + marks + [t2, t3], [])
  }

  /** The shadow marker is always drawn on the lower bitmap, and the table
      edge is drawn there exactly when it is shown. */
  lemma PartitionMarks(c: Cell, isHigher: bool, tableEdge: bool, overpass: bool)
    requires |c.ids| == 4
    ensures var p := Partition(c, isHigher, tableEdge, overpass);
      && Shadow(c.shadowBits) in p.lower
      && (forall q :: q in p.lower && q.Shadow? ==> q == Shadow(c.shadowBits))
      && (tableEdge ==> TableEdge(c.tileAbove) in p.lower)
      && (!tableEdge ==> forall q :: q in p.lower ==> !q.TableEdge?)
  {
    var p := Partition(c, isHigher, tableEdge, overpass);
    var t0, t1, t2, t3 := Tile(0, c.ids[0]), Tile(1, c.ids[1]), Tile(2, c.ids[2]), Tile(3, c.ids[3]);
    var marks := if tableEdge then [Shadow(c.shadowBits), TableEdge(c.tileAbove)] else [Shadow(c.shadowBits)];
    if isHigher {
      assert p == Layers(marks, [t0, t1, t2, t3]);
    } else if overpass {
      assert p == Layers([t0, t1] + marks, [t2, t3]);
    } else {
      assert p == Layers([t0, t1] + marks + [t2, t3], []);
    }
  }

  /** Nothing but the cell's own pieces is drawn, and no piece is lost or
      doubled. */
  lemma PartitionOwnPieces(c: Cell, isHigher: bool, tableEdge: bool, overpass: bool)
    requires |c.ids| == 4
    ensures var p := Partition(c, isHigher, tableEdge, overpass);
      && (forall q :: q in p.lower ==> q.Shadow? || q.TableEdge? || (q.layer < 4 && q.id == c.ids[q.layer]))
      && (forall q :: q in p.upper ==> q.layer < 4 && q.id == c.ids[q.layer])
      && |p.lower| + |p.upper| == if tableEdge then 6 else 5
  {
    var p := Partition(c, isHigher, tableEdge, overpass);
    var t0, t1, t2, t3 := Tile(0, c.ids[0]), Tile(1, c.ids[1]), Tile(2, c.ids[2]), Tile(3, c.ids[3]);
    var marks := if tableEdge then [Shadow(c.shadowBits), TableEdge(c.tileAbove)] else [Shadow(c.shadowBits)];
    if isHigher {
      assert p == Layers(marks, [t0, t1, t2, t3]);
    } else if overpass {
      assert p == Layers([t0, t1] + marks, [t2, t3]);
    } else {
      assert p == Layers([t0, t1] + marks + [t2, t3], []);
    }
  }

  /** Each list keeps the layer order 0, 1, 2, 3. */
  lemma PartitionKeepsOrder(c: Cell, isHigher: bool, tableEdge: bool, overpass: bool)
    requires |c.ids| == 4
    ensures var p := Partition(c, isHigher, tableEdge, overpass);
      LayersAscend(p.lower) && LayersAscend(p.upper)
  {
    var p := Partition(c, isHigher, tableEdge, overpass);
    var t0, t1, t2, t3 := Tile(0, c.ids[0]), Tile(1, c.ids[1]), Tile(2, c.ids[2]), Tile(3, c.ids[3]);
    var marks := if tableEdge then [Shadow(c.shadowBits), TableEdge(c.tileAbove)] else [Shadow(c.shadowBits)];
    if isHigher {
      assert p == Layers(marks, [t0, t1, t2, t3]);
    } else if overpass {
      assert p == Layers([t0, t1] + marks, [t2, t3]);
    } else {
      assert p == Layers([t0, t1] + marks + [t2, t3], []);
    }
  }

  /** `_paintTiles` takes over only for a cell with a star or higher-tile
      region or one of the three terrain tags; any other cell is painted by
      the host. */
  predicate UsesCustomPaint(cfg: Config, tm: Tilemap, x: int, y: int) {
    || Listed(cfg.starIds, tm.region(x, y))
    || Listed(cfg.higherIds, tm.region(x, y))
    || TileHasTag(tm, x, y, cfg.starTag)
    || TileHasTag(tm, x, y, cfg.topTag)
    || TileHasTag(tm, x, y, cfg.frontTag)
  }

  datatype Paint = HostPaint | CustomPaint(layers: Layers)

  function CellAt(tm: Tilemap, x: int, y: int): (c: Cell)
    ensures |c.ids| == 4
  {
    Cell([tm.mapData(x, y, 0), tm.mapData(x, y, 1), tm.mapData(x, y, 2), tm.mapData(x, y, 3)],
         tm.mapData(x, y, 4), tm.mapData(x, y - 1, 1))
  }

  /** The table-edge condition: the layer-1 tile above is a table, this cell's
      layer-1 tile is not, and the bottom tile casts no shadow. */
  predicate ShowsTableEdge(host: PaintHost, c: Cell)
    requires |c.ids| == 4
  {
    host.isTableTile(c.tileAbove) && !host.isTableTile(c.ids[1]) && !host.isShadowingTile(c.ids[0])
  }

  /** `_paintTiles` for map cell `(x, y)`. */
  function PaintTiles(cfg: Config, tm: Tilemap, host: PaintHost, x: int, y: int): (p: Paint)
    ensures p.CustomPaint? <==> UsesCustomPaint(cfg, tm, x, y)
    ensures p.CustomPaint? && IsHigherTile(cfg, tm, x, y) ==>
      forall k :: 0 <= k < 4 ==> Tile(k, tm.mapData(x, y, k)) in p.layers.upper
    ensures p.CustomPaint? && !IsHigherTile(cfg, tm, x, y) && !host.isOverpassPosition(x, y) ==>
      p.layers.upper == []
  {
    if UsesCustomPaint(cfg, tm, x, y) then
      var c := CellAt(tm, x, y);
      CustomPaint(Partition(c, IsHigherTile(cfg, tm, x, y), ShowsTableEdge(host, c), host.isOverpassPosition(x, y)))
    else
      HostPaint
  }

  /** Whenever `_isHigherTileNew` holds for a cell without a star region right
      below it, the cell is painted by the plugin, so the answer takes effect.
      A star region below an untagged cell with no region of its own raises
      nothing, because such a cell is painted by the host. */
  lemma HigherTakesEffect(cfg: Config, tm: Tilemap, x: int, y: int)
    ensures IsHigherTile(cfg, tm, x, y) && !Listed(cfg.starIds, tm.region(x, y + 1)) ==> UsesCustomPaint(cfg, tm, x, y)
  {
  }
}
