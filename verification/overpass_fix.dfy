/** The overpass tile fix: characters and events on different levels of an
    overpass neither collide nor trigger each other, and optionally bush and
    damage floors stop affecting a character on the higher level. The level
    is the character's `_higherLevel`, which is `true`, `false` or still
    `undefined`. Host queries (the events on a square, the host's own
    collision test, damage floors, the airship) are inputs. */
module OverpassFix {
  import Text

  /** `_higherLevel`: `undefined`, `true` or `false`. */
  datatype Level = Undefined | OnHigher | OnLower

  /** JavaScript loose equality `a == b` on these three values: `undefined`
      equals only itself, and booleans compare by value. */
  predicate LooseEquals(a: Level, b: Level) {
    match (a, b)
    case (Undefined, Undefined) => true
    case (Undefined, _) => false
    case (_, Undefined) => false
    case _ => a == b
  }

  /** On these values loose and strict equality agree, so the `!=` tests and
      the `===` test of the plugin compare levels the same way. */
  lemma LooseIsStrict(a: Level, b: Level)
    ensures LooseEquals(a, b) <==> a == b
  {
  }

  /** What the plugin reads of an event. */
  datatype Event = Event(normalPriority: bool, trigger: int, level: Level)

  predicate BlocksAtLevel(e: Event, level: Level) {
    e.normalPriority && LooseEquals(e.level, level)
  }

  /** `isCollidedWithEvents` over `here`, the host's non-through events on the
      square: some event with normal priority on the character's own level.
      The host's original test is not consulted. */
  function CollidesWithEvents(here: seq<Event>, level: Level): (r: bool)
    ensures r <==> exists i :: 0 <= i < |here| && here[i].normalPriority && here[i].level == level
  {
    if |here| == 0 then false
    else
      LooseIsStrict(here[0].level, level);
      var rest := CollidesWithEvents(here[1..], level);
      assert rest ==> exists i :: 1 <= i < |here| && here[i].normalPriority && here[i].level == level by {
        if rest {
          var i :| 0 <= i < |here[1..]| && here[1..][i].normalPriority && here[1..][i].level == level;
          assert here[i + 1] == here[1..][i];
        }
      }
      BlocksAtLevel(here[0], level) || rest
  }

  /** `isCollidedWithPlayerCharacters` for an event: never across levels,
      and the host's own answer `original` on the same level. */
  function CollidesWithPlayers(eventLevel: Level, playerLevel: Level, original: bool): (r: bool)
    ensures eventLevel != playerLevel ==> !r
    ensures eventLevel == playerLevel ==> r == original
  {
    LooseIsStrict(eventLevel, playerLevel);
    if !LooseEquals(eventLevel, playerLevel) then false else original
  }

  predicate Starts(e: Event, triggers: seq<int>, normal: bool, playerLevel: Level) {
    e.trigger in triggers && e.normalPriority == normal && e.level == playerLevel
  }

  ghost predicate StrictlyIncreasing(s: seq<nat>) {
    forall i, j :: 0 <= i < j < |s| ==> s[i] < s[j]
  }

  /** The positions of `here`, from `from` on, whose events get started. */
  function StartedFrom(here: seq<Event>, triggers: seq<int>, normal: bool, playerLevel: Level, from: nat): (started: seq<nat>)
    ensures forall i :: i in started <==> from <= i < |here| && Starts(here[i], triggers, normal, playerLevel)
    ensures StrictlyIncreasing(started)
    ensures forall k :: 0 <= k < |started| ==> from <= started[k]
    decreases |here| - from
  {
    if from >= |here| then []
    else
      var rest := StartedFrom(here, triggers, normal, playerLevel, from + 1);
      if Starts(here[from], triggers, normal, playerLevel) then [from] + rest else rest
  }

  /** `startMapEvent` over `here`, the host's events on the square: nothing
      while an event is running; otherwise, in list order, every event whose
      trigger is among `triggers`, whose priority is normal exactly when
      `normal` holds, and whose level is the player's. The result lists the
      positions in `here` of the events started. */
  function StartMapEvent(eventRunning: bool, here: seq<Event>, triggers: seq<int>, normal: bool, playerLevel: Level): (started: seq<nat>)
    ensures eventRunning ==> started == []
    ensures !eventRunning ==>
      forall i :: i in started <==> 0 <= i < |here| && Starts(here[i], triggers, normal, playerLevel)
    ensures StrictlyIncreasing(started)
  {
    if eventRunning then [] else StartedFrom(here, triggers, normal, playerLevel, 0)
  }

  /** `disable.toUpperCase() === "ON"` */
  predicate OptionOn(option: string) {
    Text.Upper(option) == "ON"
  }

  /** The option is on for exactly the four spellings of "on". */
  lemma OptionOnSpellings(option: string)
    ensures OptionOn(option) <==> option in ["ON", "On", "oN", "on"]
  {
    assert Text.IsUpperWord("ON");
    Text.UpperEqualsWord(option, "ON");
    if |option| == 2 {
      assert option == [option[0], option[1]];
    }
  }

  datatype Bush = Bush(level: Level, bushDepth: int)

  /** `refreshBushDepth` after the host computed `hostDepth`: an undefined
      level becomes `true`, and with the option on a character on the higher
      level (the new level) stands in no bush. */
  function RefreshBushDepth(level: Level, hostDepth: int, disableBush: string): (r: Bush)
    ensures r.level != Undefined
    ensures level != Undefined ==> r.level == level
    ensures r.bushDepth == 0 || r.bushDepth == hostDepth
    ensures r.bushDepth != hostDepth ==> disableBush in ["ON", "On", "oN", "on"] && r.level == OnHigher
    ensures disableBush in ["ON", "On", "oN", "on"] && r.level == OnHigher ==> r.bushDepth == 0
  {
    OptionOnSpellings(disableBush);
    var newLevel := if level == Undefined then OnHigher else level;
    Bush(newLevel, if OptionOn(disableBush) && newLevel == OnHigher then 0 else hostDepth)
  }

  /** Refreshing twice with the same host depth changes nothing further. */
  lemma RefreshBushDepthIdempotent(level: Level, hostDepth: int, disableBush: string)
    ensures var once := RefreshBushDepth(level, hostDepth, disableBush);
      RefreshBushDepth(once.level, hostDepth, disableBush) == once
  {
  }

  /** `isOnDamageFloor` for the player: never on the higher level with the
      option on, otherwise the host's damage floor outside an airship. */
  function IsOnDamageFloor(disableDamage: string, level: Level, damageFloor: bool, inAirship: bool): (r: bool)
    ensures disableDamage in ["ON", "On", "oN", "on"] && level == OnHigher ==> !r
    ensures !(disableDamage in ["ON", "On", "oN", "on"] && level == OnHigher) ==> r == (damageFloor && !inAirship)
  {
    OptionOnSpellings(disableDamage);
    if OptionOn(disableDamage) && level == OnHigher then false
    else damageFloor && !inAirship
  }
}
