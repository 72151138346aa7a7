/** The tutorial bot itself: the one piece of state it keeps across steps
    (the marine staging point) and its game callbacks. Every method except
    `OnGameStart` and `FindNearestMineralPatch` returns the commands it hands
    to the game, in the order it issues them. The step methods are proved to
    compute the matching `BotPolicy` functions; `OnGameStart`, `OnUnitIdle`,
    `OnUnitCreated` and `FindNearestMineralPatch` state their property in
    their own postconditions. */
module TutorialBot {
  import opened World
  import opened BotPolicy

  /** The command center's x coordinate that selects the first staging point
      (29.5 map units). */
  const SpawnTestX := 59

  /** The two staging points, rounded to half map units. */
  const UpperStaging := Point(134, 256)
  const LowerStaging := Point(155, 61)

  function StagingFor(ccPos: Point): Point
  {
    if ccPos.x == SpawnTestX then UpperStaging else LowerStaging
  }

  class Bot {
    /** Where newly trained marines rally; set at game start, read afterwards. */
    var stagingLocation: Point

    constructor ()
      ensures stagingLocation == Origin
    {
      stagingLocation := Origin;
    }

    /** Chooses the staging point from the position of the first own command
        center. Only this method writes `stagingLocation`. */
    method OnGameStart(s: Snapshot)
      requires OwnCommandCenters(s) != []
      modifies this`stagingLocation
      ensures stagingLocation == StagingFor(OwnCommandCenters(s)[0].pos)
      ensures stagingLocation == UpperStaging || stagingLocation == LowerStaging
    {
      var cc := OwnCommandCenters(s)[0];
      if cc.pos.x == SpawnTestX {
        stagingLocation := UpperStaging;
      } else {
        stagingLocation := LowerStaging;
      }
    }

    /** One game step: depot, barracks, marines, attack, in that order. */
    method OnStep(s: Snapshot, jitter: Jitter) returns (issued: seq<Command>)
      requires AttackTargetKnown(s)
      ensures issued == StepCommands(s, jitter)
      ensures |issued| <= 6
    {
      var ok, depot := TryBuildSupplyDepot(s, jitter);
      var barracks;
      ok, barracks := TryBuildBarracks(s, jitter);
      var marines;
      ok, marines := TryBuildMarines(s);
      var attack;
      ok, attack := TryAttackWithMarines(s);
      issued := depot + barracks + marines + attack;
      StepBound(s, jitter);
    }

    /** A command center below its harvester target trains an SCV; an SCV goes
        to mine the nearest mineral field, if there is one; nothing else. */
    method OnUnitIdle(s: Snapshot, u: Unit) returns (issued: seq<Command>)
      ensures u.unitType == CommandCenter ==>
        issued == if u.assignedHarvesters == 0 || u.assignedHarvesters < u.idealHarvesters
                  then [Command([u.tag], TrainScv, NoTarget)] else []
      ensures u.unitType == Scv ==>
        (issued == [] <==> !HasMineral(Neutrals(s))) &&
        (issued != [] ==>
           exists k :: NearestMineralAt(Neutrals(s), u.pos, k) &&
                       issued == [Command([u.tag], Smart, AtUnit(Neutrals(s)[k].tag))])
      ensures u.unitType != CommandCenter && u.unitType != Scv ==> issued == []
    {
      issued := [];
      match u.unitType {
        case CommandCenter =>
          if u.assignedHarvesters == 0 || u.assignedHarvesters < u.idealHarvesters {
            issued := [Command([u.tag], TrainScv, NoTarget)];
          }
        case Scv =>
          var target := FindNearestMineralPatch(s, u.pos);
          if target.Some? {
            issued := [Command([u.tag], Smart, AtUnit(target.value))];
          }
        case _ =>
      }
    }

    /** A new barracks rallies to the staging point; nothing else. */
    method OnUnitCreated(u: Unit) returns (issued: seq<Command>)
      ensures issued == if u.unitType == Barracks
                        then [Command([u.tag], RallyUnits, AtPoint(stagingLocation))] else []
    {
      issued := [];
      if u.unitType == Barracks {
        issued := [Command([u.tag], RallyUnits, AtPoint(stagingLocation))];
      }
    }

    /** Counts queued marines and idle barracks, and trains marines at every
        idle barracks while below the limit. Always reports success. */
    method TryBuildMarines(s: Snapshot) returns (ok: bool, issued: seq<Command>)
      ensures ok
      ensures issued == MarineCommands(s)
      ensures |issued| <= 1
    {
      var marines := OwnMarines(s);
      var barracks := OwnBarracks(s);
      var inProduction := 0;
      var idle: seq<Tag> := [];
      for i := 0 to |barracks|
        invariant inProduction == QueuedOrders(barracks, TrainMarine, i)
        invariant idle == IdleTags(barracks, i)
      {
        var orders := barracks[i].orders;
        for j := 0 to |orders|
          invariant inProduction == QueuedOrders(barracks, TrainMarine, i) + OrdersFor(orders, TrainMarine, j)
        {
          if orders[j].ability == TrainMarine {
            inProduction := inProduction + 1;
          }
        }
        if |orders| == 0 {
          idle := idle + [barracks[i].tag];
        }
      }
      issued := [];
      if |idle| > 0 && |marines| + inProduction < MarineLimit {
        issued := [Command(idle, TrainMarine, NoTarget)];
      }
      ok := true;
    }

    /** The generic structure builder: scans the own units of type `ty`,
        counting those already building and collecting candidates, gives up
        when the count reaches `n` before a visit, and otherwise sends
        `n - count` builders, padded with placeholders. */
    method TryBuildStructure(s: Snapshot, a: Ability, n: int, ty: UnitType, jitter: Jitter)
      returns (ok: bool, issued: seq<Command>)
      requires ResizeDefined(Select(s.units, Self, ty), n)
      ensures Outcome(ok, issued) == StructureOutcome(s, a, n, ty, jitter)
    {
      var scvs := Select(s.units, Self, ty);
      var gaveUp, builders, alreadyBuilding := ScanBuilders(scvs, a, n);
      if gaveUp {
        return false, [];
      }
      BuildingCountBound(scvs, a, n);
      var padded := Resize(builders, n - alreadyBuilding);
      issued := IssueBuildCommands(padded, a, jitter);
      ok := true;
    }

    /** The scan of the structure builder: visits the units in order, giving
        up when `n` of the units already visited are building; otherwise
        returns the candidate list and the number of units building. */
    method ScanBuilders(scvs: seq<Unit>, a: Ability, n: int)
      returns (gaveUp: bool, builders: seq<Unit>, alreadyBuilding: int)
      ensures gaveUp == GivesUp(scvs, a, n)
      ensures !gaveUp ==> builders == Candidates(scvs, a, |scvs|)
      ensures !gaveUp ==> alreadyBuilding == BuildingCount(scvs, a, |scvs|)
    {
      builders := [];
      alreadyBuilding := 0;
      for i := 0 to |scvs|
        invariant alreadyBuilding == BuildingCount(scvs, a, i)
        invariant builders == Candidates(scvs, a, i)
        invariant i > 0 ==> BuildingCount(scvs, a, i - 1) < n
      {
        if alreadyBuilding >= n {
          LimitReachedAt(scvs, a, n, i);
          return true, [], 0;
        }
        var building;
        builders, building := ScanOrders(scvs[i], a, builders);
        if building {
          alreadyBuilding := alreadyBuilding + 1;
        }
      }
      gaveUp := false;
    }

    /** The inner loop of the structure builder's scan: appends `u` once per
        order before its first order for `a`, and reports whether it found
        one. */
    method ScanOrders(u: Unit, a: Ability, builders: seq<Unit>)
      returns (builders': seq<Unit>, building: bool)
      ensures builders' == builders + Repeat(u, LeadingMismatches(u.orders, a))
      ensures building == IsBuilding(u, a)
    {
      builders' := builders;
      building := false;
      var j := 0;
      while j < |u.orders|
        invariant j <= LeadingMismatches(u.orders, a)
        invariant builders' == builders + Repeat(u, j)
      {
        if u.orders[j].ability == a {
          building := true;
          break;
        }
        RepeatSnoc(u, j);
        builders' := builders' + [u];
        j := j + 1;
      }
    }

    /** The closing loop of the structure builder: one build command per
        entry of the resized builder list, in list order. */
    method IssueBuildCommands(builders: seq<Builder>, a: Ability, jitter: Jitter)
      returns (issued: seq<Command>)
      ensures issued == BuildCommands(builders, a, jitter)
    {
      issued := [];
      for k := 0 to |builders|
        invariant |issued| == k
        invariant forall t :: 0 <= t < k ==> issued[t] == BuildCommand(builders[t], t, a, jitter)
      {
        issued := issued + [BuildCommand(builders[k], k, a, jitter)];
      }
    }

    /** Builds one supply depot when food used exceeds the cap minus two. */
    method TryBuildSupplyDepot(s: Snapshot, jitter: Jitter) returns (ok: bool, issued: seq<Command>)
      ensures Outcome(ok, issued) == SupplyDepotOutcome(s, jitter)
      ensures s.foodUsed <= s.foodCap - 2 ==> !ok && issued == []
      ensures |issued| <= 1
    {
      if s.foodUsed <= s.foodCap - SupplyMargin {
        return false, [];
      }
      ok, issued := TryBuildStructure(s, BuildSupplyDepot, DepotConcurrency, Scv, jitter);
      SupplyDepotRule(s, jitter);
    }

    /** Orders up to three barracks at a time while fewer than three exist and a depot
        stands. */
    method TryBuildBarracks(s: Snapshot, jitter: Jitter) returns (ok: bool, issued: seq<Command>)
      ensures Outcome(ok, issued) == BarracksOutcome(s, jitter)
      ensures !(|OwnBarracks(s)| < 3 && |OwnDepots(s)| >= 1) ==> !ok && issued == []
      ensures |issued| <= 3
    {
      var depots := OwnDepots(s);
      var barracks := OwnBarracks(s);
      if |barracks| < MaxBarracks && |depots| >= 1 {
        ok, issued := TryBuildStructure(s, BuildBarracks, BarracksConcurrency, Scv, jitter);
        BarracksRule(s, jitter);
        return;
      }
      return false, [];
    }

    /** The nearest neutral mineral field to `start`, the first one on a
        tie; `None` when no neutral unit is a mineral field. */
    method FindNearestMineralPatch(s: Snapshot, start: Point) returns (target: Option<Tag>)
      ensures target.None? <==> !HasMineral(Neutrals(s))
      ensures target.Some? ==> exists k :: NearestMineralAt(Neutrals(s), start, k) &&
                                           Neutrals(s)[k].tag == target.value
    {
      var units := Neutrals(s);
      var distance: Option<int> := None;
      var tag: Tag := NullTag;
      ghost var best := 0;
      for i := 0 to |units|
        invariant distance.None? <==> forall j :: 0 <= j < i ==> units[j].unitType != MineralField
        invariant distance.Some? ==>
          0 <= best < i && units[best].unitType == MineralField &&
          tag == units[best].tag &&
          distance.value == DistanceSquared2D(units[best].pos, start) &&
          (forall j :: 0 <= j < i && units[j].unitType == MineralField ==>
             distance.value <= DistanceSquared2D(units[j].pos, start)) &&
          (forall j :: 0 <= j < best && units[j].unitType == MineralField ==>
             distance.value < DistanceSquared2D(units[j].pos, start))
      {
        if units[i].unitType == MineralField {
          var d := DistanceSquared2D(units[i].pos, start);
          if distance.None? || d < distance.value {
            distance := Some(d);
            tag := units[i].tag;
            best := i;
          }
        }
      }
      if distance.None? {
        return None;
      }
      return Some(tag);
    }

    /** With at least eight marines, sends all of them to the first enemy
        start location. */
    method TryAttackWithMarines(s: Snapshot) returns (ok: bool, issued: seq<Command>)
      requires AttackTargetKnown(s)
      ensures Outcome(ok, issued) == AttackOutcome(s)
      ensures ok <==> |OwnMarines(s)| >= 8
      ensures ok ==> issued == [Command(Tags(OwnMarines(s)), Attack, AtPoint(s.enemyStartLocations[0]))]
    {
      var marines := OwnMarines(s);
      if |marines| >= AttackThreshold {
        var enemyStart := s.enemyStartLocations[0];
        var marineTags: seq<Tag> := [];
        for i := 0 to |marines|
          invariant |marineTags| == i
          invariant forall k :: 0 <= k < i ==> marineTags[k] == marines[k].tag
        {
          marineTags := marineTags + [marines[i].tag];
        }
        assert marineTags == Tags(marines);
        issued := [Command(marineTags, Attack, AtPoint(enemyStart))];
        return true, issued;
      }
      return false, [];
    }
  }
}
