/** The translucent-character plugin: every character carries a flag
    `_showHighLayerCharaSprite` that decides whether a translucent copy of its
    sprite is shown on the upper tile layer. The flag starts from a plugin
    parameter, is set by a plugin command, and is re-read from comment tags
    whenever an event page is set up. Each frame the copies take their
    visibility and opacity from the base sprites. */
module HighLayerSprite {
  import opened Wrappers
  import Text

  /** `enableByDefault.toUpperCase() === 'FALSE'` turns the flag off; any
      other string leaves it on. */
  function InitialFlag(enableByDefault: string): (show: bool)
    ensures !show <==> (|enableByDefault| == 5 &&
                         forall i :: 0 <= i < 5 ==> enableByDefault[i] == "FALSE"[i] || enableByDefault[i] == "false"[i])
  {
    assert Text.IsUpperWord("FALSE");
    Text.UpperEqualsWord(enableByDefault, "FALSE");
    Text.Upper(enableByDefault) != "FALSE"
  }

  /** The flags of the player, the followers and the map events (by id). */
  datatype Flags = Flags(player: bool, followers: seq<bool>, events: map<int, bool>)

  datatype CommandError = NoCharacter   // the host threw: the command named no character

  function AllSet(n: nat, value: bool): (s: seq<bool>)
    ensures |s| == n && forall i :: 0 <= i < n ==> s[i] == value
  {
    seq(n, _ => value)
  }

  /** `HighLayerCharacterSprite <id> <mode>`. `id` is the evaluated first
      argument; `subject` is the event the host's `character(id)` returned
      for a non-negative id (`None` for `null` or `undefined`). A negative id
      sets the player and every follower, any other id sets that one event;
      a mode other than TRUE or FALSE (any case) changes nothing; setting a
      flag on a missing character throws. Other commands change nothing. */
  function PluginCommand(f: Flags, command: string, id: int, mode: string, subject: Option<int>): (r: Result<Flags, CommandError>)
    ensures Text.Upper(command) != "HIGHLAYERCHARACTERSPRITE" ==> r == Success(f)
    ensures Text.Upper(mode) != "TRUE" && Text.Upper(mode) != "FALSE" ==> r == Success(f)
    ensures r.Success? && Text.Upper(command) == "HIGHLAYERCHARACTERSPRITE" && Text.Upper(mode) in ["TRUE", "FALSE"] ==>
      var value := Text.Upper(mode) == "TRUE";
      if id < 0 then
        r.value == Flags(value, AllSet(|f.followers|, value), f.events)
      else
        subject.Some? && r.value.player == f.player && r.value.followers == f.followers
        && r.value.events == f.events[subject.value := value]
    ensures r.Failure? <==> (Text.Upper(command) == "HIGHLAYERCHARACTERSPRITE" && id >= 0
                             && Text.Upper(mode) in ["TRUE", "FALSE"] && subject.None?)
  {
    if Text.Upper(command) != "HIGHLAYERCHARACTERSPRITE" then Success(f)
    else if id < 0 then
      if Text.Upper(mode) == "TRUE" then Success(Flags(true, AllSet(|f.followers|, true), f.events))
      else if Text.Upper(mode) == "FALSE" then Success(Flags(false, AllSet(|f.followers|, false), f.events))
      else Success(f)
    else
      if Text.Upper(mode) == "TRUE" then
        (match subject
         case Some(e) => Success(f.(events := f.events[e := true]))
         case None => Failure(NoCharacter))
      else if Text.Upper(mode) == "FALSE" then
        (match subject
         case Some(e) => Success(f.(events := f.events[e := false]))
         case None => Failure(NoCharacter))
      else Success(f)
  }

  /** An event command: its code and its first parameter (a comment's text). */
  datatype EventCommand = EventCommand(code: int, text: string)

  const DisableTag: string := "<Disable High Layer Character Sprite>"
  const EnableTag: string := "<Enable High Layer Character Sprite>"

  /** What one command of a page says about the flag: only comments (code
      108, continued as 408) are read, and a disable tag is tested before an
      enable tag. */
  function CommentTag(c: EventCommand): (tag: Option<bool>)
    ensures tag.Some? ==> c.code == 108 || c.code == 408
    ensures tag == Some(false) <==> (c.code == 108 || c.code == 408) && Text.ContainsIgnoreCase(c.text, DisableTag)
    ensures tag == Some(true) <==>
      && (c.code == 108 || c.code == 408)
      && !Text.ContainsIgnoreCase(c.text, DisableTag)
      && Text.ContainsIgnoreCase(c.text, EnableTag)
  {
    if c.code != 108 && c.code != 408 then None
    else if Text.ContainsIgnoreCase(c.text, DisableTag) then Some(false)
    else if Text.ContainsIgnoreCase(c.text, EnableTag) then Some(true)
    else None
  }

  /** Command `i` is the last tagged comment of the list. */
  ghost predicate LastTagged(list: seq<EventCommand>, i: int) {
    && 0 <= i < |list|
    && CommentTag(list[i]).Some?
    && forall j :: i < j < |list| ==> CommentTag(list[j]).None?
  }

  /** The loop of `setupPage` from the first command to the last: the last
      tagged comment decides, and without one the flag is left as it was. */
  function FoldTags(list: seq<EventCommand>, show: bool): (r: bool)
    ensures (forall i :: 0 <= i < |list| ==> CommentTag(list[i]).None?) ==> r == show
    ensures forall i :: LastTagged(list, i) ==> r == CommentTag(list[i]).value
    decreases |list|
  {
    if |list| == 0 then show
    else
      var tail := list[1..];
      var r := FoldTags(tail, CommentTag(list[0]).GetOr(show));
      assert forall i :: LastTagged(list, i) && i > 0 ==> LastTagged(tail, i - 1);
      r
  }

  /** `setupPage`: with a page selected, the flag is re-read from the page's
      comment tags, the last tagged comment winning; a page without tags, or
      no page, leaves it as it was. */
  function SetupPage(pageIndex: int, list: seq<EventCommand>, show: bool): (r: bool)
    ensures pageIndex < 0 ==> r == show
    ensures (forall i :: 0 <= i < |list| ==> CommentTag(list[i]).None?) ==> r == show
    ensures pageIndex >= 0 ==> forall i :: LastTagged(list, i) ==> r == CommentTag(list[i]).value
  {
    if pageIndex >= 0 then FoldTags(list, show) else show
  }

  /** The opacity rate: the variable's value as a percentage when a variable
      id of at least 1 is configured, else the default rate. */
  function OpacityRate(variableId: int, variables: int -> int, defaultRate: real): (rate: real)
    ensures variableId >= 1 ==> rate * 100.0 == variables(variableId) as real
    ensures variableId < 1 ==> rate == defaultRate
  {
    if variableId >= 1 then variables(variableId) as real / 100.0 else defaultRate
  }

  /** What the update reads of a base character sprite. */
  datatype BaseSprite = BaseSprite(opacity: real, visible: bool, show: bool)

  datatype HighSprite = HighSprite(z: int, opacity: real, visible: bool)

  /** One copy after the frame's update: on the upper tile layer (z = 4),
      at the base opacity times the rate, visible exactly when the character's
      flag is on and the base sprite is visible. */
  function Refreshed(base: BaseSprite, rate: real): (h: HighSprite)
    ensures h.visible <==> base.show && base.visible
    ensures h.z == 4 && h.opacity == base.opacity * rate
  {
    HighSprite(4, base.opacity * rate, if base.show then base.visible else false)
  }

  /** The loop of `Spriteset_Map.update` over the base sprites: a copy that
      exists is refreshed from the base sprite at the same index; a missing
      copy is skipped and copies past the base sprites stay as they were. */
  method UpdateHighLayer(bases: seq<BaseSprite>, copies: seq<Option<HighSprite>>, rate: real)
    returns (updated: seq<Option<HighSprite>>)
    ensures |updated| == |copies|
    ensures forall i :: 0 <= i < |copies| ==>
      updated[i] == if i < |bases| && copies[i].Some? then Some(Refreshed(bases[i], rate)) else copies[i]
  {
    updated := copies;
    var i := 0;
    while i < |bases|
      invariant 0 <= i <= |bases|
      invariant |updated| == |copies|
      invariant forall k :: 0 <= k < |copies| ==>
        updated[k] == if k < i && copies[k].Some? then Some(Refreshed(bases[k], rate)) else copies[k]
    {
      if i < |updated| && updated[i].Some? {
        updated := updated[i := Some(Refreshed(bases[i], rate))];
      }
      i := i + 1;
    }
  }
}
