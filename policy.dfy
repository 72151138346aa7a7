/** The tutorial bot's per-step rules as functions of the snapshot, and the
    properties they have. `OnStep`, `TryBuildMarines`, `TryBuildStructure`,
    `TryBuildSupplyDepot`, `TryBuildBarracks` and `TryAttackWithMarines` of
    `TutorialBot.Bot` are proved to compute exactly these functions. */
module BotPolicy {
  import opened World

  const MarineLimit := 100
  const AttackThreshold := 8
  const MaxBarracks := 3
  const SupplyMargin := 2
  const DepotConcurrency := 1
  const BarracksConcurrency := 3

  /** What a try-build rule returns, together with the commands it issued. */
  datatype Outcome = Outcome(ok: bool, issued: seq<Command>)

  const Nothing := Outcome(false, [])

  /** The i-th scaled random offset drawn for the i-th builder of a call. */
  type Jitter = nat -> Point

  // ---------------------------------------------------------------------
  // Order queues

  /** The number of orders for `a` among the first `j` orders of a queue. */
  function OrdersFor(orders: seq<Order>, a: Ability, j: nat): nat
    requires j <= |orders|
  {
    if j == 0 then 0
    else OrdersFor(orders, a, j - 1) + (if orders[j - 1].ability == a then 1 else 0)
  }

  /** The number of orders for `a` queued at the first `i` units. */
  function QueuedOrders(us: seq<Unit>, a: Ability, i: nat): nat
    requires i <= |us|
  {
    if i == 0 then 0
    else QueuedOrders(us, a, i - 1) + OrdersFor(us[i - 1].orders, a, |us[i - 1].orders|)
  }

  // ---------------------------------------------------------------------
  // Marine production

  /** Tags of the idle (empty-queue) units among the first `i`, in order. */
  function IdleTags(bs: seq<Unit>, i: nat): seq<Tag>
    requires i <= |bs|
  {
    if i == 0 then []
    else IdleTags(bs, i - 1) + (if bs[i - 1].orders == [] then [bs[i - 1].tag] else [])
  }

  /** A tag is listed exactly when it belongs to one of the first `i` units
      and that unit's queue is empty. */
  lemma {:induction false} IdleTagsMembers(bs: seq<Unit>, i: nat)
    requires i <= |bs|
    ensures forall t :: t in IdleTags(bs, i) <==>
      exists k :: 0 <= k < i && bs[k].orders == [] && bs[k].tag == t
  {
    if i > 0 {
      IdleTagsMembers(bs, i - 1);
    }
  }

  /** Positions of the idle units among the first `i`, in increasing order. */
  function IdlePositions(bs: seq<Unit>, i: nat): seq<nat>
    requires i <= |bs|
  {
    if i == 0 then []
    else IdlePositions(bs, i - 1) + (if bs[i - 1].orders == [] then [i - 1] else [])
  }

  /** The idle tags are listed in snapshot order: the p-th tag is that of the
      p-th idle unit, the positions increase, and no idle unit is skipped. */
  lemma {:induction false} IdleTagsInOrder(bs: seq<Unit>, i: nat)
    requires i <= |bs|
    ensures var ks := IdlePositions(bs, i);
      var ts := IdleTags(bs, i);
      |ks| == |ts| &&
      (forall p :: 0 <= p < |ks| ==> ks[p] < i && bs[ks[p]].orders == [] && ts[p] == bs[ks[p]].tag) &&
      (forall p, q :: 0 <= p < q < |ks| ==> ks[p] < ks[q]) &&
      (forall k :: 0 <= k < i && bs[k].orders == [] ==> k in ks)
  {
    if i > 0 {
      IdleTagsInOrder(bs, i - 1);
    }
  }

  function OwnCommandCenters(s: Snapshot): seq<Unit> { Select(s.units, Self, CommandCenter) }
  function OwnMarines(s: Snapshot): seq<Unit> { Select(s.units, Self, Marine) }
  function OwnBarracks(s: Snapshot): seq<Unit> { Select(s.units, Self, Barracks) }
  function OwnDepots(s: Snapshot): seq<Unit> { Select(s.units, Self, SupplyDepot) }

  /** Marine-training orders queued at all own barracks. */
  function MarinesInProduction(s: Snapshot): nat
  {
    QueuedOrders(OwnBarracks(s), TrainMarine, |OwnBarracks(s)|)
  }

  /** The commands of the throttled marine production rule. */
  function MarineCommands(s: Snapshot): seq<Command>
  {
    var bs := OwnBarracks(s);
    var idle := IdleTags(bs, |bs|);
    if |idle| > 0 && |OwnMarines(s)| + MarinesInProduction(s) < MarineLimit
    then [Command(idle, TrainMarine, NoTarget)]
    else []
  }

  /** Marine production issues at most one command; it issues one exactly when
      some own barracks is idle and live plus queued marines stay below the
      limit, and that command trains marines at exactly the idle barracks. */
  lemma MarineProductionRule(s: Snapshot)
    ensures |MarineCommands(s)| <= 1
    ensures MarineCommands(s) != [] <==>
      (exists b :: b in OwnBarracks(s) && b.orders == []) &&
      |OwnMarines(s)| + MarinesInProduction(s) < MarineLimit
    ensures forall c :: c in MarineCommands(s) ==>
      c.ability == TrainMarine && c.target == NoTarget &&
      forall t :: t in c.units <==> exists b :: b in OwnBarracks(s) && b.orders == [] && b.tag == t
  {
    var bs := OwnBarracks(s);
    var idle := IdleTags(bs, |bs|);
    IdleTagsMembers(bs, |bs|);
    if b :| b in bs && b.orders == [] {
      var k :| 0 <= k < |bs| && bs[k] == b;
      assert b.tag in idle;
    }
    if |idle| > 0 {
      assert idle[0] in idle;
    }
    forall t ensures t in idle <==> exists b :: b in bs && b.orders == [] && b.tag == t {
      if b :| b in bs && b.orders == [] && b.tag == t {
        var k :| 0 <= k < |bs| && bs[k] == b;
      }
    }
  }

  // ---------------------------------------------------------------------
  // Generic structure builder

  /** How many orders precede the first order for `a` (all of them when there
      is none): the number of times the builder scan appends the unit. */
  function LeadingMismatches(orders: seq<Order>, a: Ability): (k: nat)
    ensures k <= |orders|
    ensures forall j :: 0 <= j < k ==> orders[j].ability != a
    ensures k < |orders| ==> orders[k].ability == a
  {
    if orders == [] then 0
    else if orders[0].ability == a then 0
    else 1 + LeadingMismatches(orders[1..], a)
  }

  /** The unit already has an order for `a` somewhere in its queue. */
  predicate IsBuilding(u: Unit, a: Ability)
  {
    LeadingMismatches(u.orders, a) < |u.orders|
  }

  /** The number of units among the first `i` that already have an order for
      `a`, each counted once. */
  function BuildingCount(us: seq<Unit>, a: Ability, i: nat): nat
    requires i <= |us|
  {
    if i == 0 then 0
    else BuildingCount(us, a, i - 1) + (if IsBuilding(us[i - 1], a) then 1 else 0)
  }

  function Repeat(u: Unit, k: nat): (r: seq<Unit>)
    ensures |r| == k && forall j :: 0 <= j < k ==> r[j] == u
  {
    seq(k, _ => u)
  }

  lemma RepeatSnoc(u: Unit, k: nat)
    ensures Repeat(u, k + 1) == Repeat(u, k) + [u]
  {
  }

  /** The builder list after the scan has visited the first `i` units: each
      unit once per order that precedes its first order for `a`. */
  function Candidates(us: seq<Unit>, a: Ability, i: nat): seq<Unit>
    requires i <= |us|
  {
    if i == 0 then []
    else Candidates(us, a, i - 1) + Repeat(us[i - 1], LeadingMismatches(us[i - 1].orders, a))
  }

  /** The scan gives up: at the start of some visit the count of units already
      building has reached the limit. */
  predicate LimitHitEarly(us: seq<Unit>, a: Ability, n: int)
  {
    exists k :: 0 <= k < |us| && BuildingCount(us, a, k) >= n
  }

  /** The units before the last one already reach the limit. */
  predicate GivesUp(us: seq<Unit>, a: Ability, n: int)
  {
    |us| > 0 && BuildingCount(us, a, |us| - 1) >= n
  }

  lemma {:induction false} BuildingCountMonotone(us: seq<Unit>, a: Ability, k: nat, i: nat)
    requires k <= i <= |us|
    ensures BuildingCount(us, a, k) <= BuildingCount(us, a, i)
  {
    if k < i {
      BuildingCountMonotone(us, a, k, i - 1);
    }
  }

  /** The scan gives up exactly when the units before the last one already
      reach the limit. */
  lemma LimitHitEarlyIff(us: seq<Unit>, a: Ability, n: int)
    ensures LimitHitEarly(us, a, n) <==> GivesUp(us, a, n)
  {
    if LimitHitEarly(us, a, n) {
      var k :| 0 <= k < |us| && BuildingCount(us, a, k) >= n;
      BuildingCountMonotone(us, a, k, |us| - 1);
    }
  }

  /** Reaching the limit at the start of visit `i` means giving up. */
  lemma LimitReachedAt(us: seq<Unit>, a: Ability, n: int, i: nat)
    requires i < |us| && BuildingCount(us, a, i) >= n
    ensures GivesUp(us, a, n)
  {
    BuildingCountMonotone(us, a, i, |us| - 1);
  }

  /** Each unit counts at most once toward the units already building, so
      the count is bounded by the units and by the matching orders. */
  lemma {:induction false} BuildingCountAtMostUnits(us: seq<Unit>, a: Ability, i: nat)
    requires i <= |us|
    ensures BuildingCount(us, a, i) <= i
    ensures BuildingCount(us, a, i) <= QueuedOrders(us, a, i)
  {
    if i > 0 {
      BuildingCountAtMostUnits(us, a, i - 1);
      var u := us[i - 1];
      if IsBuilding(u, a) {
        OrdersForPositive(u.orders, a, LeadingMismatches(u.orders, a), |u.orders|);
      }
    }
  }

  lemma {:induction false} OrdersForPositive(orders: seq<Order>, a: Ability, j: nat, m: nat)
    requires j < m <= |orders| && orders[j].ability == a
    ensures OrdersFor(orders, a, m) >= 1
  {
    if j < m - 1 {
      OrdersForPositive(orders, a, j, m - 1);
    }
  }

  /** `resize` is only given a negative size when the limit is negative and
      there is no unit to scan. */
  predicate ResizeDefined(us: seq<Unit>, n: int)
  {
    n >= 0 || us != []
  }

  /** When the scan does not give up, the count is at most the limit, so the
      number of builders requested is never negative. */
  lemma BuildingCountBound(us: seq<Unit>, a: Ability, n: int)
    requires ResizeDefined(us, n) && !GivesUp(us, a, n)
    ensures 0 <= BuildingCount(us, a, |us|) <= n
  {
    if us != [] {
      BuildingCountMonotone(us, a, 0, |us| - 1);
    }
  }

  /** A unit with an empty queue, or whose first order already is `a`, is
      never a candidate; every candidate comes from the scanned units. */
  lemma {:induction false} CandidatesNeverIdle(us: seq<Unit>, a: Ability, i: nat)
    requires i <= |us|
    ensures forall c :: c in Candidates(us, a, i) ==>
      c in us && c.orders != [] && c.orders[0].ability != a
  {
    if i > 0 {
      var u := us[i - 1];
      CandidatesNeverIdle(us, a, i - 1);
      forall c | c in Candidates(us, a, i)
        ensures c in us && c.orders != [] && c.orders[0].ability != a
      {
        if c !in Candidates(us, a, i - 1) {
          assert c in Repeat(u, LeadingMismatches(u.orders, a));
        }
      }
    }
  }

  lemma {:induction false} RepeatMultiset(u: Unit, k: nat, v: Unit)
    ensures multiset(Repeat(u, k))[v] == if v == u then k else 0
  {
    if k > 0 {
      RepeatSnoc(u, k - 1);
      RepeatMultiset(u, k - 1, v);
    }
  }

  /** How often the scan of the first `i` units pushes the unit `v`: once per
      order before its first order for `a`, for every position `v` holds. */
  function PushCount(us: seq<Unit>, a: Ability, i: nat, v: Unit): nat
    requires i <= |us|
  {
    if i == 0 then 0
    else PushCount(us, a, i - 1, v) + (if us[i - 1] == v then LeadingMismatches(v.orders, a) else 0)
  }

  /** The candidate list holds each unit exactly as often as the scan pushes it. */
  lemma {:induction false} CandidatesCount(us: seq<Unit>, a: Ability, i: nat, v: Unit)
    requires i <= |us|
    ensures multiset(Candidates(us, a, i))[v] == PushCount(us, a, i, v)
  {
    if i > 0 {
      CandidatesCount(us, a, i - 1, v);
      CandidatesStepCount(us, a, i, v);
    }
  }

  lemma CandidatesStepCount(us: seq<Unit>, a: Ability, i: nat, v: Unit)
    requires 0 < i <= |us|
    ensures multiset(Candidates(us, a, i))[v] ==
      multiset(Candidates(us, a, i - 1))[v] +
      (if v == us[i - 1] then LeadingMismatches(us[i - 1].orders, a) else 0)
  {
    RepeatMultiset(us[i - 1], LeadingMismatches(us[i - 1].orders, a), v);
  }

  /** With distinct tags, a unit at one position is pushed only for that
      position. */
  lemma {:induction false} PushCountUnique(us: seq<Unit>, a: Ability, i: nat, k: nat)
    requires i <= |us| && k < |us| && UniqueTags(us)
    ensures PushCount(us, a, i, us[k]) == if k < i then LeadingMismatches(us[k].orders, a) else 0
  {
    if i > 0 {
      PushCountUnique(us, a, i - 1, k);
      if k != i - 1 {
        DistinctUnits(us, i - 1, k);
      }
    }
  }

  lemma DistinctUnits(us: seq<Unit>, k: nat, j: nat)
    requires UniqueTags(us) && k < |us| && j < |us| && k != j
    ensures us[k] != us[j]
  {
    if k < j {
      assert us[k].tag != us[j].tag;
    } else {
      assert us[j].tag != us[k].tag;
    }
  }

  /** With distinct tags, each of the first `i` units appears among the
      candidates exactly once per order that precedes its first order for
      `a`; the other units do not appear. */
  lemma CandidateMultiplicity(us: seq<Unit>, a: Ability, i: nat, k: nat)
    requires i <= |us| && k < |us| && UniqueTags(us)
    ensures multiset(Candidates(us, a, i))[us[k]] ==
      if k < i then LeadingMismatches(us[k].orders, a) else 0
  {
    CandidatesCount(us, a, i, us[k]);
    PushCountUnique(us, a, i, k);
  }

  /** An entry of the builder list after `resize`: a scanned unit, or the
      default-constructed unit that pads a list that is too short. */
  datatype Builder = Candidate(unit: Unit) | Placeholder

  /** `builders.resize(k)`: truncate to `k` entries or pad with placeholders. */
  function Resize(cs: seq<Unit>, k: nat): seq<Builder>
  {
    seq(k, i requires 0 <= i < k => if i < |cs| then Candidate(cs[i]) else Placeholder)
  }

  function BuilderTag(b: Builder): Tag
  {
    if b.Candidate? then b.unit.tag else NullTag
  }

  function BuilderPos(b: Builder): Point
  {
    if b.Candidate? then b.unit.pos else Origin
  }

  /** The build order for the i-th builder: its own position moved by the
      i-th random offset. */
  function BuildCommand(b: Builder, i: nat, a: Ability, jitter: Jitter): Command
  {
    var p := BuilderPos(b);
    var d := jitter(i);
    Command([BuilderTag(b)], a, AtPoint(Point(p.x + d.x, p.y + d.y)))
  }

  /** One build command per builder, in list order. */
  function BuildCommands(bs: seq<Builder>, a: Ability, jitter: Jitter): seq<Command>
  {
    seq(|bs|, i requires 0 <= i < |bs| => BuildCommand(bs[i], i, a, jitter))
  }

  /** The generic structure builder run on the own units of type `ty`. */
  function StructureOutcome(s: Snapshot, a: Ability, n: int, ty: UnitType, jitter: Jitter): Outcome
    requires ResizeDefined(Select(s.units, Self, ty), n)
  {
    var us := Select(s.units, Self, ty);
    if GivesUp(us, a, n) then Nothing
    else
      BuildingCountBound(us, a, n);
      Outcome(true, BuildCommands(Resize(Candidates(us, a, |us|), n - BuildingCount(us, a, |us|)), a, jitter))
  }

  /** The structure builder either gives up with no command, exactly when the
      limit is reached at the start of some visit (equivalently, by the units
      before the last one), or succeeds with exactly `n - BuildingCount`
      single-unit build commands, aimed first at the candidates in order and
      then at placeholders. */
  lemma StructureOutcomeRule(s: Snapshot, a: Ability, n: int, ty: UnitType, jitter: Jitter)
    requires ResizeDefined(Select(s.units, Self, ty), n)
    ensures var us := Select(s.units, Self, ty);
      var o := StructureOutcome(s, a, n, ty, jitter);
      var cs := Candidates(us, a, |us|);
      (!o.ok <==> LimitHitEarly(us, a, n)) &&
      (!o.ok <==> |us| > 0 && BuildingCount(us, a, |us| - 1) >= n) &&
      (!o.ok ==> o.issued == []) &&
      (o.ok ==> 0 <= n - BuildingCount(us, a, |us|) == |o.issued| <= n) &&
      (forall i :: 0 <= i < |o.issued| ==>
         o.issued[i].ability == a && o.issued[i].target.AtPoint? &&
         o.issued[i].units == [if i < |cs| then cs[i].tag else NullTag])
  {
    var us := Select(s.units, Self, ty);
    LimitHitEarlyIff(us, a, n);
    if !GivesUp(us, a, n) {
      BuildingCountBound(us, a, n);
      BuildCommandsAddress(Candidates(us, a, |us|), n - BuildingCount(us, a, |us|), a, jitter);
    }
  }

  /** The commands built from a resized list address the candidates in order,
      then the placeholder tag. */
  lemma BuildCommandsAddress(cs: seq<Unit>, k: nat, a: Ability, jitter: Jitter)
    ensures var issued := BuildCommands(Resize(cs, k), a, jitter);
      |issued| == k &&
      forall i :: 0 <= i < k ==>
        issued[i].ability == a && issued[i].target.AtPoint? &&
        issued[i].units == [if i < |cs| then cs[i].tag else NullTag]
  {
    var bs := Resize(cs, k);
    var issued := BuildCommands(bs, a, jitter);
    forall i | 0 <= i < k
      ensures issued[i].ability == a && issued[i].target.AtPoint? &&
        issued[i].units == [if i < |cs| then cs[i].tag else NullTag]
    {
      assert issued[i] == BuildCommand(bs[i], i, a, jitter);
      assert bs[i] == if i < |cs| then Candidate(cs[i]) else Placeholder;
    }
  }

  /** Supply depots: nothing unless supply is nearly capped, then one
      concurrent depot build by an SCV. */
  function SupplyDepotOutcome(s: Snapshot, jitter: Jitter): Outcome
  {
    if s.foodUsed <= s.foodCap - SupplyMargin then Nothing
    else StructureOutcome(s, BuildSupplyDepot, DepotConcurrency, Scv, jitter)
  }

  /** A step orders at most one supply depot, only when food used exceeds the
      cap minus two, and only through a single unit: a candidate SCV or the
      placeholder. */
  lemma SupplyDepotRule(s: Snapshot, jitter: Jitter)
    ensures var o := SupplyDepotOutcome(s, jitter);
      (s.foodUsed <= s.foodCap - 2 ==> o == Nothing) &&
      |o.issued| <= 1 &&
      forall c :: c in o.issued ==> c.ability == BuildSupplyDepot && |c.units| == 1
  {
    StructureOutcomeRule(s, BuildSupplyDepot, DepotConcurrency, Scv, jitter);
  }

  /** Barracks: up to three concurrent builds while fewer than three barracks
      and at least one depot exist. */
  function BarracksOutcome(s: Snapshot, jitter: Jitter): Outcome
  {
    if |OwnBarracks(s)| < MaxBarracks && |OwnDepots(s)| >= 1
    then StructureOutcome(s, BuildBarracks, BarracksConcurrency, Scv, jitter)
    else Nothing
  }

  /** Barracks are ordered only with fewer than three barracks and at least
      one depot, at most three at a time, each through a single unit: a
      candidate SCV or the placeholder. */
  lemma BarracksRule(s: Snapshot, jitter: Jitter)
    ensures var o := BarracksOutcome(s, jitter);
      (o.ok ==> |OwnBarracks(s)| < 3 && |OwnDepots(s)| >= 1) &&
      (!(|OwnBarracks(s)| < 3 && |OwnDepots(s)| >= 1) ==> o == Nothing) &&
      |o.issued| <= 3 &&
      forall c :: c in o.issued ==> c.ability == BuildBarracks && |c.units| == 1
  {
    StructureOutcomeRule(s, BuildBarracks, BarracksConcurrency, Scv, jitter);
  }

  // ---------------------------------------------------------------------
  // Nearest mineral field

  function Neutrals(s: Snapshot): seq<Unit> { SelectAlliance(s.units, Neutral) }

  predicate HasMineral(us: seq<Unit>)
  {
    exists j :: 0 <= j < |us| && us[j].unitType == MineralField
  }

  /** `us[k]` is a mineral field no farther from `start` than any other, and
      strictly nearer than every mineral field before it (first one wins). */
  predicate NearestMineralAt(us: seq<Unit>, start: Point, k: int)
  {
    0 <= k < |us| && us[k].unitType == MineralField &&
    (forall j :: 0 <= j < |us| && us[j].unitType == MineralField ==>
       DistanceSquared2D(us[k].pos, start) <= DistanceSquared2D(us[j].pos, start)) &&
    (forall j :: 0 <= j < k && us[j].unitType == MineralField ==>
       DistanceSquared2D(us[k].pos, start) < DistanceSquared2D(us[j].pos, start))
  }

  /** The tie-break makes the nearest mineral field unique. */
  lemma NearestMineralUnique(us: seq<Unit>, start: Point, k1: int, k2: int)
    requires NearestMineralAt(us, start, k1) && NearestMineralAt(us, start, k2)
    ensures k1 == k2
  {
  }

  // ---------------------------------------------------------------------
  // Attack

  /** `front()` of the enemy start locations is only taken with eight marines. */
  predicate AttackTargetKnown(s: Snapshot)
  {
    |OwnMarines(s)| >= AttackThreshold ==> |s.enemyStartLocations| > 0
  }

  function AttackOutcome(s: Snapshot): Outcome
    requires AttackTargetKnown(s)
  {
    var marines := OwnMarines(s);
    if |marines| >= AttackThreshold
    then Outcome(true, [Command(Tags(marines), Attack, AtPoint(s.enemyStartLocations[0]))])
    else Nothing
  }

  /** The attack fires exactly with at least eight marines, and then sends
      every own marine, in snapshot order, to the first enemy start location. */
  lemma AttackRule(s: Snapshot)
    requires AttackTargetKnown(s)
    ensures var o := AttackOutcome(s); var marines := OwnMarines(s);
      (o.ok <==> |marines| >= 8) &&
      (!o.ok ==> o.issued == []) &&
      (o.ok ==>
         |o.issued| == 1 &&
         o.issued[0].ability == Attack &&
         o.issued[0].target == AtPoint(s.enemyStartLocations[0]) &&
         |o.issued[0].units| == |marines| &&
         forall i :: 0 <= i < |marines| ==> o.issued[0].units[i] == marines[i].tag)
  {
  }

  // ---------------------------------------------------------------------
  // One step

  /** Depot, then barracks, then marines, then attack. */
  function StepCommands(s: Snapshot, jitter: Jitter): seq<Command>
    requires AttackTargetKnown(s)
  {
    SupplyDepotOutcome(s, jitter).issued + BarracksOutcome(s, jitter).issued
    + MarineCommands(s) + AttackOutcome(s).issued
  }

  /** A step issues at most six commands: one depot, three barracks, one
      marine batch and one attack. */
  lemma StepBound(s: Snapshot, jitter: Jitter)
    requires AttackTargetKnown(s)
    ensures |StepCommands(s, jitter)| <= 6
  {
    SupplyDepotRule(s, jitter);
    BarracksRule(s, jitter);
    MarineProductionRule(s);
  }
}
