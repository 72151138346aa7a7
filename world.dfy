/** The world as the tutorial bot sees it during one game step: the units with
    their order queues, the supply counters and the enemy start locations, and
    the commands the bot hands back to the game. */
module World {

  /** A unit's identifier; 0 is the tag of a default-constructed unit. */
  type Tag = nat

  const NullTag: Tag := 0

  /** Map coordinates in half map units, so that a cell centre such as 29.5
      is the exact integer 59. */
  datatype Point = Point(x: int, y: int)

  const Origin: Point := Point(0, 0)

  /** The unit kinds the bot reacts to; every other kind is `OtherUnitType`. */
  datatype UnitType =
    | CommandCenter
    | Scv
    | SupplyDepot
    | Barracks
    | Marine
    | MineralField
    | OtherUnitType(id: nat)

  datatype Alliance = Self | Ally | Neutral | Enemy

  /** The abilities the bot issues or looks for in order queues. */
  datatype Ability =
    | TrainScv
    | TrainMarine
    | BuildSupplyDepot
    | BuildBarracks
    | Smart
    | RallyUnits
    | Attack
    | OtherAbility(id: nat)

  /** One entry of a unit's order queue. */
  datatype Order = Order(ability: Ability)

  datatype Unit = Unit(
    tag: Tag,
    unitType: UnitType,
    alliance: Alliance,
    pos: Point,
    orders: seq<Order>,
    assignedHarvesters: int,
    idealHarvesters: int)

  /** The observation of one game step. */
  datatype Snapshot = Snapshot(
    units: seq<Unit>,
    foodUsed: int,
    foodCap: int,
    enemyStartLocations: seq<Point>)

  /** What a command aims at besides the units it is given to. */
  datatype Target = NoTarget | AtPoint(point: Point) | AtUnit(unit: Tag)

  /** One call of the game's unit-command interface: the units addressed, the
      ability and the optional target. */
  datatype Command = Command(units: seq<Tag>, ability: Ability, target: Target)

  datatype Option<T> = None | Some(value: T)

  /** The units of one alliance and one type, in snapshot order. */
  function Select(us: seq<Unit>, alliance: Alliance, ty: UnitType): seq<Unit>
  {
    if us == [] then []
    else
      (if us[0].alliance == alliance && us[0].unitType == ty then [us[0]] else [])
      + Select(us[1..], alliance, ty)
  }

  /** `Select` keeps exactly the units of the alliance and type asked for, and
      never more units than it is given. */
  lemma {:induction false} SelectMembers(us: seq<Unit>, alliance: Alliance, ty: UnitType)
    ensures |Select(us, alliance, ty)| <= |us|
    ensures forall u :: u in Select(us, alliance, ty) <==>
      u in us && u.alliance == alliance && u.unitType == ty
  {
    if us != [] {
      SelectMembers(us[1..], alliance, ty);
      assert us == [us[0]] + us[1..];
    }
  }

  /** The units of one alliance, whatever their type, in snapshot order. */
  function SelectAlliance(us: seq<Unit>, alliance: Alliance): seq<Unit>
  {
    if us == [] then []
    else
      (if us[0].alliance == alliance then [us[0]] else [])
      + SelectAlliance(us[1..], alliance)
  }

  /** `SelectAlliance` keeps exactly the units of the alliance asked for. */
  lemma {:induction false} SelectAllianceMembers(us: seq<Unit>, alliance: Alliance)
    ensures |SelectAlliance(us, alliance)| <= |us|
    ensures forall u :: u in SelectAlliance(us, alliance) <==> u in us && u.alliance == alliance
  {
    if us != [] {
      SelectAllianceMembers(us[1..], alliance);
      assert us == [us[0]] + us[1..];
    }
  }

  /** The tags of `us`, position by position. */
  function Tags(us: seq<Unit>): (ts: seq<Tag>)
    ensures |ts| == |us|
    ensures forall i :: 0 <= i < |us| ==> ts[i] == us[i].tag
  {
    if us == [] then [] else Tags(us[..|us| - 1]) + [us[|us| - 1].tag]
  }

  function DistanceSquared2D(a: Point, b: Point): int
  {
    (a.x - b.x) * (a.x - b.x) + (a.y - b.y) * (a.y - b.y)
  }

  /** No two units of `us` share a tag (the game never reuses a live tag). */
  predicate UniqueTags(us: seq<Unit>)
  {
    forall i, j :: 0 <= i < j < |us| ==> us[i].tag != us[j].tag
  }
}
