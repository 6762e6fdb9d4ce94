# AndrewX map and battle plugins — a Dafny model

This project models the decision logic of four RPG Maker MV plugins by AndrewX:

- **Enhanced Tile Passage.** This is the main part. Three terrain tags mark wall-top tiles, wall-front tiles and "star" tiles. Four region-id lists force a map cell to be passable, impassable or drawn above characters. The plugin replaces the map's `checkPassage` and `_paintTiles` on both `Tilemap` and `ShaderTilemap`, and adds the tilemap method `_isHigherTileNew`.
  - `checkPassage` measures the vertical wall around a cell: the runs of top and front rows above and below it. It then decides whether the cell is walkable.
  - `_isHigherTileNew` measures the same wall and decides whether the cell is drawn above characters.
  - `_paintTiles` splits a cell's four layer tiles, its shadow and its table edge between the lower and the upper bitmap.
- **Overpass Tile Fix.** A character's `_higherLevel` separates the two levels of an overpass. Collisions and event starts only happen within one level. With the options on, bush and damage floors stop affecting the higher level.
- **Translucent Character Behind Tile.** Every character has a flag that shows a translucent copy of its sprite on the upper tile layer. The flag comes from a parameter, a plugin command, or comment tags on event pages. Each frame the copies take their visibility and opacity from the base sprites.
- **Automatic Battle Camera.** The `Battle_Camera` class: a position and a zoom that move a bounded step toward a target every frame. It can focus on an enemy, re-centre, and map battler coordinates through the camera.

Module layout:

| module | concern |
|---|---|
| `Wrappers` | `Option` and `Result` |
| `Text` | ASCII upper-casing, case-insensitive search, `split` / join |
| `TileConfig` | parsing the region-id lists, the configuration record |
| `TileFlags` | flag words, the JavaScript `t << 12` tag test, per-layer passage verdicts |
| `WallScan` | run counts up and down a column, the four wall counters, the shared threshold `WallForced` |
| `TilePassage` | the map side: `_hasTag`, `_normalCheckPassage`, `checkPassage` |
| `TileLayer` | the tilemap side: `_tileHasTag`, `_isHigherTileNew`, `_paintTiles` |
| `TileClassifier` | lemmas that relate the two sides |
| `OverpassFix` | the overpass plugin |
| `HighLayerSprite` | the translucent-character plugin |
| `BattleCamera` | the battle camera |

Host state and host services are inputs:

- the tileset flag table;
- `allTiles`, `_readMapData` and `regionId`;
- the host's original `checkPassage` and collision test;
- table-tile, shadowing-tile and overpass-position tests;
- game variables, event lists, sprite lists and screen size.

Representation choices:

- Flag words are `bv16`. A tile id outside the flag table reads as 0, as JavaScript's bit operators treat `undefined`.
- Terrain tags are unbounded integers, and `t << 12` is modelled with its signed 32-bit wrap-around.
- The camera's coordinates are exact reals.

The code's wall rule is the same for both classifiers. A front cell is walkable without a bit test exactly when a wall top sits above it and `lowerFront + 1 > upperTop`. The rendering check returns "above characters" under that same condition. `TileClassifier.PassageIsLayerOrBits` proves the agreement.

## Model

| member | source | states |
|---|---|---|
| Text.Split | plugins/AndrewX_EnhancedTilePassage.js:158 | `split(",")` yields at least one piece, no piece contains the separator, and joining the pieces with "," gives back the input |
| Text.UpperEqualsWord | plugins/AndrewX_OverpassTileFix.js:103 | `s.toUpperCase() === W` for an upper-case word W holds exactly when s has W's length and each character is W's or its lower-case form |
| Text.ContainsIgnoreCase | plugins/AndrewX_TranslucentCharacterBehindTile.js:214-216 | a case-insensitive regex match of a literal pattern holds exactly when the pattern occurs, ignoring ASCII case, at some position of the text |
| TileConfig.ParseIdList | plugins/AndrewX_EnhancedTilePassage.js:158-173 | after split and the conversion loop up to `bound`, the list is as long as the longer of the two, holds the converted pieces below `bound`, NaN for slots past the pieces, and the raw text of slots the loop never reached (see `ListedAfterParse` for what the list means) |
| TileConfig.ListedAfterParse | plugins/AndrewX_EnhancedTilePassage.js:158-173 | a region counts as listed after parsing exactly when it is nonzero and one of the converted pieces denotes it |
| TileConfig.Listed | plugins/AndrewX_EnhancedTilePassage.js:226-234 | `regionId && list.contains(regionId)`: region 0 is never listed, and only a slot converted to that integer matches under strict comparison |
| TileConfig.ParseConfig | plugins/AndrewX_EnhancedTilePassage.js:157-176 | as written: the star and higher lists hold exactly their own nonzero ids; the passable and impassable lists hold only the ids among their first as many pieces as the higher list has |
| TileConfig.ParseConfigIntended | plugins/AndrewX_EnhancedTilePassage.js:166-173 | corrected: every list holds exactly the nonzero ids written in it |
| TileConfig.PassableListTruncated | plugins/AndrewX_EnhancedTilePassage.js:166-169 | with higher list "0" and passable list "3,5", region 5 is not passable as written but is in the corrected parse |
| TileFlags.ShiftTag | plugins/AndrewX_EnhancedTilePassage.js:188 | JavaScript `t << 12` yields the signed 32-bit integer congruent to t times 4096 modulo 2^32 |
| TileFlags.MaskedTagValue | plugins/AndrewX_EnhancedTilePassage.js:188 | `flag & 0xF000` is 4096 times the flag word's 4-bit tag field |
| TileFlags.TagMatches | plugins/AndrewX_EnhancedTilePassage.js:188 | the tag test `(flag & 0xF000) === (t << 12)` holds exactly when the configured tag equals the tag field modulo 2^20; tags from 16 to 2^20-1, such as the disabling default 99, match nothing |
| TileFlags.LayerVerdict | plugins/AndrewX_EnhancedTilePassage.js:202-208 | a layer with the star bit 0x10 set never decides; otherwise it says passable exactly when the masked bits are all clear, blocked exactly when they are all set, and nothing when only some are set |
| TileFlags.SingleBitVerdict | plugins/AndrewX_EnhancedTilePassage.js:201-209 | for a single direction bit, a layer decides exactly when its star bit 0x10 is clear, and it is passable exactly when the direction bit is clear |
| TilePassage.HasTag | plugins/AndrewX_EnhancedTilePassage.js:182-192 | `_hasTag` is false on a cell whose four first tiles are all 0; otherwise it holds exactly when the fourth tile's tag field equals the tag modulo 2^20 |
| TilePassage.NormalCheckFrom | plugins/AndrewX_EnhancedTilePassage.js:201-210 | from entry `from` on, the loop answers passable exactly when some entry before the last two is passable and every entry between is skipped |
| TilePassage.NormalCheckPassage | plugins/AndrewX_EnhancedTilePassage.js:198-211 | `_normalCheckPassage` is true exactly when, before the last two entries, the first entry that decides says passable; with no deciding entry the cell is blocked |
| TilePassage.NormalCheckSingleBit | plugins/AndrewX_EnhancedTilePassage.js:198-211 | for a single direction bit, the first entry without the star bit decides, by its direction bit |
| TilePassage.LastTwoIgnored | plugins/AndrewX_EnhancedTilePassage.js:201 | the last two entries of `allTiles` never change the upper-layer passage answer |
| TilePassage.CheckPassage | plugins/AndrewX_EnhancedTilePassage.js:218-290 | star and passable regions open the cell; otherwise an impassable region shuts it; an untagged cell gets the host's answer; a star-tagged cell is open; a front or top cell is open exactly when the wall threshold forces it or the upper-layer bit test passes |
| TilePassage.RegionZeroNeverOverrides | plugins/AndrewX_EnhancedTilePassage.js:226-234 | a cell in region 0 gets the same answer as under empty region lists |
| TilePassage.HigherIdsDoNotAffectPassage | plugins/AndrewX_EnhancedTilePassage.js:218-290 | the higher-tile list never changes the passage answer |
| WallScan.RunDown | plugins/AndrewX_EnhancedTilePassage.js:243-246 | the downward loop counts the maximal run of tagged rows below the start that stays inside the map |
| WallScan.RunUp | plugins/AndrewX_EnhancedTilePassage.js:248-251 | the upward loop counts the maximal run of tagged rows above the start that does not go above row 0 |
| WallScan.RunDownUnique | plugins/AndrewX_EnhancedTilePassage.js:243-246 | the downward count is the only length with the maximal-run property |
| WallScan.RunUpUnique | plugins/AndrewX_EnhancedTilePassage.js:248-251 | the upward count is the only length with the maximal-run property |
| WallScan.RunDownLocal | plugins/AndrewX_EnhancedTilePassage.js:243-246 | two columns that agree on the map's rows give the same downward count |
| WallScan.RunUpLocal | plugins/AndrewX_EnhancedTilePassage.js:248-255 | two columns that agree on rows 0 up to the start give the same upward count |
| WallScan.FrontWall | plugins/AndrewX_EnhancedTilePassage.js:242-255 | for a front cell: lowerFront is the front run below, upperFront the front run above, and upperTop the top run directly above that |
| WallScan.TopWall | plugins/AndrewX_EnhancedTilePassage.js:264-277 | for a top cell: upperTop is the top run above, lowerTop the top run below, and lowerFront the front run directly below that |
| WallScan.WallForced | plugins/AndrewX_EnhancedTilePassage.js:256-288 | the shared threshold: a front cell is forced exactly when a top run lies above it and is no longer than the front run below; a top cell exactly when its top run above is shorter than the front run under the top run, or than the default wall height when there is none |
| WallScan.NoDefaultHeightNoForce | plugins/AndrewX_EnhancedTilePassage.js:278-283 | with a default wall height of 0, a top cell with no front run beneath is never forced |
| WallScan.FrontWallsAgree | plugins/AndrewX_EnhancedTilePassage.js:242-255 | scans of columns that agree on every map row give the same front-cell counters |
| WallScan.TopWallsAgree | plugins/AndrewX_EnhancedTilePassage.js:264-277 | scans of columns that agree on every map row give the same top-cell counters |
| TileLayer.TileHasTag | plugins/AndrewX_EnhancedTilePassage.js:296-302 | `_tileHasTag` holds exactly when the bottom layer's tag field equals the tag modulo 2^20, with no all-zero guard |
| TileLayer.IsHigherTile | plugins/AndrewX_EnhancedTilePassage.js:308-374 | a star region below, a star or higher region here, or the star tag raise the cell; a front or top cell is raised exactly when the wall threshold forces it; an untagged cell with no region reason stays below |
| TileLayer.PassageIdsDoNotAffectLayer | plugins/AndrewX_EnhancedTilePassage.js:308-374 | the passable and impassable lists never change the layer decision |
| TileLayer.Partition | plugins/AndrewX_EnhancedTilePassage.js:402-440 | each layer tile lands in exactly one list; layers 0-1 are upper exactly when the cell is higher, layers 2-3 when it is higher or at an overpass position; the upper list holds only tiles |
| TileLayer.PartitionMarks | plugins/AndrewX_EnhancedTilePassage.js:418-424 | the shadow is always drawn on the lower bitmap, and the table edge is drawn there exactly when its condition holds |
| TileLayer.PartitionOwnPieces | plugins/AndrewX_EnhancedTilePassage.js:402-440 | only the cell's own pieces are drawn, none is lost or doubled: five pieces, six with a table edge |
| TileLayer.PartitionKeepsOrder | plugins/AndrewX_EnhancedTilePassage.js:407-440 | each bitmap receives the layer tiles in the order 0, 1, 2, 3 |
| TileLayer.UsesCustomPaint | plugins/AndrewX_EnhancedTilePassage.js:382-388 | the plugin paints a cell itself when its region is a star or higher region, or its bottom tile carries one of the three tags |
| TileLayer.ShowsTableEdge | plugins/AndrewX_EnhancedTilePassage.js:420-421 | a table edge is drawn when the layer-1 tile above is a table, this cell's layer-1 tile is not, and the bottom tile casts no shadow |
| TileLayer.PaintTiles | plugins/AndrewX_EnhancedTilePassage.js:381-440 | the plugin paints a cell exactly when it has a star or higher region or one of the three tags; a higher cell puts all four layers on top; a cell neither higher nor at an overpass puts nothing on top |
| TileLayer.HigherTakesEffect | plugins/AndrewX_EnhancedTilePassage.js:314-388 | a cell that `_isHigherTileNew` raises (lines 314-322) for any reason other than a star region below passes the custom-paint gate of `_paintTiles` (lines 382-388) |
| TileClassifier.SameColumnFromData | plugins/AndrewX_EnhancedTilePassage.js:182-192 | `_hasTag` and `_tileHasTag` agree on every map row of a column when both read the same flags and height, `allTiles` is the four layers from the top down on every map row, and tile 0 carries none of the three tags |
| TileClassifier.SameWalls | plugins/AndrewX_EnhancedTilePassage.js:242-277 | when the map view and the tilemap view agree on a column's tags on every map row, both measure the same wall |
| TileClassifier.PassageIsLayerOrBits | plugins/AndrewX_EnhancedTilePassage.js:256-288 | when the two views agree on the column's tags on every map row, on a tagged cell with no region reason, walkable means drawn above characters or passing the upper-layer bit test |
| TileClassifier.HigherImpliesPassable | plugins/AndrewX_EnhancedTilePassage.js:338-370 | when the two views agree on the column's tags on every map row, a cell drawn above characters by its tags or its own star region is walkable unless its region is impassable |
| OverpassFix.LooseIsStrict | plugins/AndrewX_OverpassTileFix.js:90 | on `undefined`, `true` and `false`, loose and strict equality agree |
| OverpassFix.CollidesWithEvents | plugins/AndrewX_OverpassTileFix.js:83-95 | a character collides exactly when some event on the square has normal priority and is on the character's level |
| OverpassFix.CollidesWithPlayers | plugins/AndrewX_OverpassTileFix.js:109-114 | an event never collides with players on another level, and gets the host's answer on the same level |
| OverpassFix.StartedFrom | plugins/AndrewX_OverpassTileFix.js:119-125 | from a position on, the events started are exactly those matching trigger, priority and level, in list order |
| OverpassFix.StartMapEvent | plugins/AndrewX_OverpassTileFix.js:117-127 | nothing starts while an event runs; otherwise exactly the events with a listed trigger, the requested priority and the player's level start, in list order |
| OverpassFix.OptionOnSpellings | plugins/AndrewX_OverpassTileFix.js:103 | the option is on for exactly the spellings "ON", "On", "oN" and "on" |
| OverpassFix.RefreshBushDepth | plugins/AndrewX_OverpassTileFix.js:98-106 | an undefined level becomes higher, a defined level is kept, and the bush depth is zeroed exactly when the option is on and the character is on the higher level |
| OverpassFix.RefreshBushDepthIdempotent | plugins/AndrewX_OverpassTileFix.js:98-106 | a second refresh with the same host depth changes nothing |
| OverpassFix.IsOnDamageFloor | plugins/AndrewX_OverpassTileFix.js:130-135 | the higher level with the option on is never on a damage floor; otherwise the host floor counts outside an airship |
| HighLayerSprite.InitialFlag | plugins/AndrewX_TranslucentCharacterBehindTile.js:128-135 | the flag starts off exactly for the five-letter spellings of "false" in any case, and on for every other parameter |
| HighLayerSprite.AllSet | plugins/AndrewX_TranslucentCharacterBehindTile.js:187-194 | every follower gets the same flag |
| HighLayerSprite.PluginCommand | plugins/AndrewX_TranslucentCharacterBehindTile.js:181-205 | other commands and other modes change nothing; a negative id sets the player and all followers; otherwise only the named event changes; a missing character fails exactly when a flag would be set on it |
| HighLayerSprite.CommentTag | plugins/AndrewX_TranslucentCharacterBehindTile.js:212-218 | only comments (codes 108 and 408) carry a tag; a comment with the disable tag says off, even if it also has the enable tag; one with only the enable tag says on |
| HighLayerSprite.FoldTags | plugins/AndrewX_TranslucentCharacterBehindTile.js:211-220 | the last comment with a tag decides the flag, and without one the flag is unchanged |
| HighLayerSprite.SetupPage | plugins/AndrewX_TranslucentCharacterBehindTile.js:208-222 | with no page, or no tagged comment, the flag is unchanged; otherwise the last tagged comment decides |
| HighLayerSprite.OpacityRate | plugins/AndrewX_TranslucentCharacterBehindTile.js:165-170 | with a variable id of at least 1 the rate is the variable's value as a percentage; otherwise the default rate |
| HighLayerSprite.Refreshed | plugins/AndrewX_TranslucentCharacterBehindTile.js:164-176 | a copy is on the upper layer at the scaled opacity, and visible exactly when its flag is on and the base sprite is visible |
| HighLayerSprite.UpdateHighLayer | plugins/AndrewX_TranslucentCharacterBehindTile.js:157-178 | every existing copy at a base sprite's index is refreshed from that sprite; missing copies and copies beyond the base sprites stay as they were |
| BattleCamera.Initialize | plugins/AndrewX_AutomaticBattleCamera.js:106-120 | the camera starts at the screen centre at zoom 1, already at its target, with the configured frame speed |
| BattleCamera.YOffset | plugins/AndrewX_AutomaticBattleCamera.js:131-139 | the offset is half the height of the first sprite showing the battler, or 0 when no sprite does |
| BattleCamera.FocusOn | plugins/AndrewX_AutomaticBattleCamera.js:126-153 | a non-enemy changes nothing; for an enemy the target becomes its screen point shifted by the offset and half the status window; zoom and speed change only when given, the speed otherwise resets; the current position stays |
| BattleCamera.Center | plugins/AndrewX_AutomaticBattleCamera.js:155-163 | the target becomes the screen centre at the given zoom or at 1; the current position, the zoom, the frame speed and the centre stay |
| BattleCamera.BattlerX | plugins/AndrewX_AutomaticBattleCamera.js:165-170 | the displayed coordinate is the centre plus the battler's offset from the camera times the zoom; the camera's own point maps to the centre |
| BattleCamera.BattlerY | plugins/AndrewX_AutomaticBattleCamera.js:172-177 | the displayed coordinate is the centre plus the battler's vertical offset from the camera times the zoom; the camera's own row maps to the centre |
| BattleCamera.AxisSpeed | plugins/AndrewX_AutomaticBattleCamera.js:209-219 | a step is at least 1 pixel, or 0.001 for zoom, and unbounded exactly when the frame speed is 0 |
| BattleCamera.Toward | plugins/AndrewX_AutomaticBattleCamera.js:181-193 | the clamped move lands on the target exactly when the step covers the distance, and otherwise moves by exactly one step toward it; an unbounded step lands on the target |
| BattleCamera.AxisStep | plugins/AndrewX_AutomaticBattleCamera.js:180-194 | one frame never passes the target, leaves an axis at its target alone, and otherwise reaches the target or gets at least the minimum step closer |
| BattleCamera.Update | plugins/AndrewX_AutomaticBattleCamera.js:179-195 | each axis moves toward its target without overshoot; targets, centre and speed are unchanged; a camera at its target stays put |
| BattleCamera.RunIsAxiswise | plugins/AndrewX_AutomaticBattleCamera.js:179-195 | n frames of the camera are n frames of each axis on its own |
| BattleCamera.AxisReaches | plugins/AndrewX_AutomaticBattleCamera.js:179-219 | an axis reaches its target once the frames times its minimum step cover the distance |
| BattleCamera.RunKeepsTargets | plugins/AndrewX_AutomaticBattleCamera.js:179-195 | repeated updates never change the target |
| BattleCamera.CameraSettles | plugins/AndrewX_AutomaticBattleCamera.js:179-219 | after at least as many frames as the pixel distances, and 1000 times the zoom distance, the camera is exactly at its target |

## Left out

- Drawing: bitmap clearing, the redraw cache (`_readLastTiles` / `_writeLastTiles`), the ShaderTilemap variant of `_paintTiles`, and autotile animation. These are rendering side effects; the model stops at the lower/upper split.
- The host's own `checkPassage`, collision test, `regionId`, `allTiles`, `_readMapData`, `isTableTile`, `isShadowingTile` and `_isOverpassPosition` are inputs, not models.
- `PluginManager.parameters` and the `Number(x || default)` conversion of scalar parameters: the configuration record takes the converted numbers.
- `Number()` on a list piece is the input conversion `toNumber`. The model does not reproduce JavaScript's number grammar.
- HighLayerSprite.InitialFlag: upper-casing is ASCII only, while JavaScript's `toUpperCase` also maps the long s (ſ) to S, so the parameter "falſe" turns the flag off in the source but not in the model.
- HighLayerSprite.PluginCommand: with ASCII-only upper-casing, the command name spelled with the long s or the dotless i (ı to I), and the mode "falſe", are accepted by the source but not by the model.
- Text.UpperEqualsWord: states `toUpperCase` on ASCII only. No non-ASCII character upper-cases to a piece of "ON" or "TRUE", so OverpassFix.OptionOnSpellings and the TRUE mode are exact.
- `eval` of the plugin command's first argument: the id is given as an integer. A plugin command with missing arguments throws in the source and is not modelled.
- `Game_Interpreter.character` is an input: its answer for a non-negative id is the `subject` argument.
- HighLayerSprite.Refreshed: the copy's opacity is the product as computed; the host's sprite opacity setter then clamps it to 0-255, which is not modelled.
- `createCharacters` builds the translucent sprite list. It has no decision logic; the list is an input of HighLayerSprite.UpdateHighLayer.
- BattleCamera.Initialize: the four `back*Original` background offsets are not modelled. No modelled member reads them.
- The battle camera's hooks into animation, sprite and scene updates, outside the `Battle_Camera` class, are not modelled. So are the other AndrewX plugins in the repository.
- Floating point: the camera is modelled with exact reals. A frame speed of 0 is modelled as an unbounded step, which is what JavaScript's `Infinity` produces; NaN speeds are not modelled.
- Event start, damage, airship and event-running state are inputs. The plugins only read them.

## Findings

| source | as written | input that shows it | evidently intended | confidence | as-written member | corrected member |
|---|---|---|---|---|---|---|
| plugins/AndrewX_EnhancedTilePassage.js:166-173 | the passable and impassable conversion loops run up to the length of the higher-tile list | higher-tile list "0" (one piece) and passable list "3,5": "5" is never converted, so region 5 is never passable | each loop converts its own list over its own length | high, not executed | TileConfig.PassableListTruncated | TileConfig.ParseConfigIntended |

The as-written parse is TileConfig.ParseConfig. The rest of the model takes a configuration record and works with either parse.
