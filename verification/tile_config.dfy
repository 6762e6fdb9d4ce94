/** Configuration of the enhanced tile passage plugin: three terrain tags, a
    default wall height and four region-id lists. The lists arrive as
    comma-separated strings; `Number()` on one piece is the host conversion
    `toNumber`, which yields the integer the piece denotes or `None` for a
    number that no region id can equal (NaN, a fraction, an infinity). */
module TileConfig {
  import opened Wrappers
  import Text

  /** One slot of a region-id list after the conversion loop. */
  datatype Entry =
    | Int(value: int)          // converted to an integral number
    | NonInteger               // converted to NaN or another non-integral number
    | Unconverted(text: string) // left as the string the loop never reached

  datatype Params = Params(
    starTag: int, topTag: int, frontTag: int, defWallHeight: int,
    starList: string, higherList: string, passableList: string, impassableList: string)

  datatype Config = Config(
    starTag: int, topTag: int, frontTag: int, defWallHeight: int,
    starIds: seq<Entry>, higherIds: seq<Entry>, passableIds: seq<Entry>, impassableIds: seq<Entry>)

  function Max(a: int, b: int): int {
    if a < b then b else a
  }

  function Pieces(raw: string): (parts: seq<string>)
    ensures |parts| >= 1
  {
    Text.Split(raw, ',')
  }

  function Convert(piece: string, toNumber: string -> Option<int>): Entry {
    match toNumber(piece)
    case Some(n) => Int(n)
    case None => NonInteger
  }

  /** `raw.split(",")` followed by `for (i = 0; i < bound; i++) list[i] = Number(list[i])`:
      the first `bound` slots are converted (a slot past the end of the split
      reads `undefined`, which converts to NaN), later slots keep their text. */
  function ParseIdList(raw: string, bound: nat, toNumber: string -> Option<int>): (list: seq<Entry>)
    ensures |list| == Max(|Pieces(raw)|, bound)
    ensures forall i :: 0 <= i < |list| ==>
      (i < bound && i < |Pieces(raw)| ==> list[i] == Convert(Pieces(raw)[i], toNumber)) &&
      (i < bound && i >= |Pieces(raw)| ==> list[i] == NonInteger) &&
      (i >= bound ==> list[i] == Unconverted(Pieces(raw)[i]))
  {
    var parts := Pieces(raw);
    seq(Max(|parts|, bound), i requires 0 <= i < Max(|parts|, bound) =>
      if i < bound then (if i < |parts| then Convert(parts[i], toNumber) else NonInteger)
      else Unconverted(parts[i]))
  }

  /** `regionId && list.contains(regionId)`: region 0 is falsy and never listed,
      and `contains` compares strictly, so only converted integral slots match. */
  predicate Listed(list: seq<Entry>, region: int) {
    region != 0 && Int(region) in list
  }

  /** `r` is written among the first `bound` pieces of `raw`. */
  ghost predicate Declares(raw: string, bound: nat, toNumber: string -> Option<int>, r: int) {
    exists i :: 0 <= i < |Pieces(raw)| && i < bound && toNumber(Pieces(raw)[i]) == Some(r)
  }

  /** A region is listed after parsing exactly when it is nonzero and one of
      the converted pieces denotes it. */
  lemma ListedAfterParse(raw: string, bound: nat, toNumber: string -> Option<int>, r: int)
    ensures Listed(ParseIdList(raw, bound, toNumber), r) <==> r != 0 && Declares(raw, bound, toNumber, r)
  {
    var list := ParseIdList(raw, bound, toNumber);
    var parts := Pieces(raw);
    if Int(r) in list {
      var i :| 0 <= i < |list| && list[i] == Int(r);
      assert i < bound && i < |parts| && toNumber(parts[i]) == Some(r);
    }
    if Declares(raw, bound, toNumber, r) {
      var i :| 0 <= i < |parts| && i < bound && toNumber(parts[i]) == Some(r);
      assert list[i] == Int(r);
    }
  }

  /** The configuration as the plugin builds it: the passable and impassable
      conversion loops are bounded by the length of the higher-tile list. */
  function ParseConfig(p: Params, toNumber: string -> Option<int>): (cfg: Config)
    ensures forall r :: Listed(cfg.starIds, r) <==> r != 0 && Declares(p.starList, |Pieces(p.starList)|, toNumber, r)
    ensures forall r :: Listed(cfg.higherIds, r) <==> r != 0 && Declares(p.higherList, |Pieces(p.higherList)|, toNumber, r)
    ensures forall r :: Listed(cfg.passableIds, r) <==> r != 0 && Declares(p.passableList, |Pieces(p.higherList)|, toNumber, r)
    ensures forall r :: Listed(cfg.impassableIds, r) <==> r != 0 && Declares(p.impassableList, |Pieces(p.higherList)|, toNumber, r)
  {
    var higherCount := |Pieces(p.higherList)|;
    var cfg := Config(p.starTag, p.topTag, p.frontTag, p.defWallHeight,
      ParseIdList(p.starList, |Pieces(p.starList)|, toNumber),
      ParseIdList(p.higherList, higherCount, toNumber),
      ParseIdList(p.passableList, higherCount, toNumber),
      ParseIdList(p.impassableList, higherCount, toNumber));
    forall r ensures Listed(cfg.starIds, r) <==> r != 0 && Declares(p.starList, |Pieces(p.starList)|, toNumber, r) {
      ListedAfterParse(p.starList, |Pieces(p.starList)|, toNumber, r);
    }
    forall r ensures Listed(cfg.higherIds, r) <==> r != 0 && Declares(p.higherList, higherCount, toNumber, r) {
      ListedAfterParse(p.higherList, higherCount, toNumber, r);
    }
    forall r ensures Listed(cfg.passableIds, r) <==> r != 0 && Declares(p.passableList, higherCount, toNumber, r) {
      ListedAfterParse(p.passableList, higherCount, toNumber, r);
    }
    forall r ensures Listed(cfg.impassableIds, r) <==> r != 0 && Declares(p.impassableList, higherCount, toNumber, r) {
      ListedAfterParse(p.impassableList, higherCount, toNumber, r);
    }
    cfg
  }

  /** The configuration with every list converted over its own length, so that
      each list holds exactly the nonzero ids written in it. */
  function ParseConfigIntended(p: Params, toNumber: string -> Option<int>): (cfg: Config)
    ensures forall r :: Listed(cfg.starIds, r) <==> r != 0 && Declares(p.starList, |Pieces(p.starList)|, toNumber, r)
    ensures forall r :: Listed(cfg.higherIds, r) <==> r != 0 && Declares(p.higherList, |Pieces(p.higherList)|, toNumber, r)
    ensures forall r :: Listed(cfg.passableIds, r) <==> r != 0 && Declares(p.passableList, |Pieces(p.passableList)|, toNumber, r)
    ensures forall r :: Listed(cfg.impassableIds, r) <==> r != 0 && Declares(p.impassableList, |Pieces(p.impassableList)|, toNumber, r)
  {
    var cfg := Config(p.starTag, p.topTag, p.frontTag, p.defWallHeight,
      ParseIdList(p.starList, |Pieces(p.starList)|, toNumber),
      ParseIdList(p.higherList, |Pieces(p.higherList)|, toNumber),
      ParseIdList(p.passableList, |Pieces(p.passableList)|, toNumber),
      ParseIdList(p.impassableList, |Pieces(p.impassableList)|, toNumber));
    forall r ensures Listed(cfg.starIds, r) <==> r != 0 && Declares(p.starList, |Pieces(p.starList)|, toNumber, r) {
      ListedAfterParse(p.starList, |Pieces(p.starList)|, toNumber, r);
    }
    forall r ensures Listed(cfg.higherIds, r) <==> r != 0 && Declares(p.higherList, |Pieces(p.higherList)|, toNumber, r) {
      ListedAfterParse(p.higherList, |Pieces(p.higherList)|, toNumber, r);
    }
    forall r ensures Listed(cfg.passableIds, r) <==> r != 0 && Declares(p.passableList, |Pieces(p.passableList)|, toNumber, r) {
      ListedAfterParse(p.passableList, |Pieces(p.passableList)|, toNumber, r);
    }
    forall r ensures Listed(cfg.impassableIds, r) <==> r != 0 && Declares(p.impassableList, |Pieces(p.impassableList)|, toNumber, r) {
      ListedAfterParse(p.impassableList, |Pieces(p.impassableList)|, toNumber, r);
    }
    cfg
  }

  /** Decimal digits only, enough for the example below. */
  function SmallNumber(s: string): Option<int> {
    if s == "0" then Some(0) else if s == "3" then Some(3) else if s == "5" then Some(5) else None
  }

  /** With the default higher-tile list "0" (one piece) and the passable list
      "3,5", the plugin converts only "3": region 5 stays the string "5" and is
      never treated as passable, although the corrected parse lists it. */
  lemma PassableListTruncated()
    ensures var p := Params(99, 7, 6, 2, "0", "0", "3,5", "0");
      && !Listed(ParseConfig(p, SmallNumber).passableIds, 5)
      && Listed(ParseConfigIntended(p, SmallNumber).passableIds, 5)
  {
    var p := Params(99, 7, 6, 2, "0", "0", "3,5", "0");
    assert Pieces("0") == ["0"];
    assert Text.IndexOf("3,5", ',') == 1;
    assert "3,5"[..1] == "3" && "3,5"[2..] == "5";
    assert ',' !in "5";
    assert Text.Split("5", ',') == ["5"];
    assert Pieces("3,5") == ["3", "5"];
    var asWritten := ParseConfig(p, SmallNumber).passableIds;
    assert asWritten == ParseIdList("3,5", 1, SmallNumber);
    assert asWritten == [Int(3), Unconverted("5")];
    var intended := ParseConfigIntended(p, SmallNumber).passableIds;
    assert intended[1] == Int(5);
  }
}
