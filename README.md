# Tutorial bot of the StarCraft II client API, in Dafny

This project models the decision logic of the tutorial bot that ships with the
StarCraft II client API (`examples/tutorial.cc`, class `Bot`). Once per game step
the bot reads the observation and issues unit commands. It keeps a supply depot
going when supply is nearly capped. While fewer than three barracks exist and
a depot stands, it orders up to three barracks at a time, so more than three
can end up under construction. It trains
marines at idle barracks below a limit of 100, and it sends every marine to the
enemy start location once it has eight. Its event callbacks put idle command
centers to training SCVs and idle SCVs to mining, and they rally new barracks
to a staging point chosen at game start.

The model has three modules:

- `World` (`world.dfy`) holds the observation as a value (`Snapshot`) and the
  game's unit filters:
  - a `Snapshot` has units with tag, type, alliance, position, order queue and
    harvester counts, plus food used, food cap and the enemy start locations;
  - a `Command` is the units addressed, an ability and an optional point or
    unit target;
  - the filters are `Select`, by alliance and type, and `SelectAlliance`, both
    keeping snapshot order.
- `BotPolicy` (`policy.dfy`) holds each rule of the bot as a function of the
  snapshot: `MarineCommands`, `StructureOutcome`, `SupplyDepotOutcome`,
  `BarracksOutcome`, `AttackOutcome` and `StepCommands`. It also holds the
  lemmas stating what these rules guarantee.
- `TutorialBot` (`bot.dfy`) holds the class `Bot`:
  - its one field, `stagingLocation`, is the staging point;
  - its methods are the bot's callbacks and helpers, written with the source's
    loops and accumulators;
  - `OnStep`, `TryBuildMarines`, `TryBuildStructure`, `TryBuildSupplyDepot`,
    `TryBuildBarracks` and `TryAttackWithMarines` return the commands they
    issue, in issue order, and are proved to compute exactly the matching
    `BotPolicy` function;
  - `OnGameStart` (which only sets the staging point), `OnUnitIdle`,
    `OnUnitCreated` and `FindNearestMineralPatch` (which returns a tag) state
    their property in their own postconditions.

Conventions of the model:

- **Coordinates** are integers in half map units, so the command center test
  `x == 29.5` is the exact test `x == 59`.
- **Build-site offsets.** The structure builder moves each build site by a random
  offset. The model takes these offsets as a parameter `jitter: nat -> Point`:
  the i-th builder of a call gets offset `jitter(i)`, already scaled.
- **Candidate selection** in the structure builder is modelled as written:
  - a unit is appended to the builder list once for every order that precedes
    its first order for the structure's ability (once per order if it has no
    such order);
  - so a unit with an empty order queue is never a builder;
  - the count of units already building is checked only at the start of a
    visit, so reaching the limit at the last unit does not make the call give
    up;
  - `resize` pads a short list with default-constructed units, modelled as
    `Placeholder` builders with tag 0 at the origin.
- **Undefined behaviour.** Taking `front()` of an empty list is undefined. The
  model turns it into preconditions: `OnGameStart` needs an own command center,
  and attacking needs a known enemy start location.
- **Negative resize.** A negative `resize` size converts to a huge unsigned
  size, and `std::vector::resize` then throws `std::length_error`. The model
  excludes this with the precondition `ResizeDefined` of the structure builder.
  Both callers meet it, since their limits are positive.

## Model

| member | source | states |
|---|---|---|
| World.SelectMembers | examples/tutorial.cc:65-66 | the unit filter keeps exactly the units of the requested alliance and type, and never more units than it is given |
| World.SelectAllianceMembers | examples/tutorial.cc:143 | the alliance filter keeps exactly the neutral (or other requested) units |
| World.Tags | examples/tutorial.cc:169-172 | the tag list has one entry per unit, the i-th being the i-th unit's tag |
| BotPolicy.IdleTagsMembers | examples/tutorial.cc:69-79 | a tag is collected exactly when it belongs to a barracks with an empty order queue |
| BotPolicy.IdleTagsInOrder | examples/tutorial.cc:69-79 | the idle barracks tags come in snapshot order, one per idle barracks, none skipped |
| BotPolicy.MarineProductionRule | examples/tutorial.cc:63-85 | at most one command; one is issued exactly when some barracks is idle and live plus queued marines are below 100; it trains marines at exactly the idle barracks |
| BotPolicy.LeadingMismatches | examples/tutorial.cc:99-106 | the number of times a unit is appended: every order before it differs from the ability, and the order at it (if any) matches |
| BotPolicy.BuildingCountMonotone | examples/tutorial.cc:94-107 | the count of units already building never decreases during the scan |
| BotPolicy.LimitHitEarlyIff | examples/tutorial.cc:95-98 | the limit is reached at the start of some visit exactly when the units before the last one reach it |
| BotPolicy.LimitReachedAt | examples/tutorial.cc:96-97 | reaching the limit at the start of any visit means the call gives up |
| BotPolicy.BuildingCountAtMostUnits | examples/tutorial.cc:99-103 | each unit counts toward the already-building total at most once, so the total is bounded by the units scanned and by their matching orders |
| BotPolicy.BuildingCountBound | examples/tutorial.cc:109 | when the scan does not give up, the number of builders requested, limit minus count, is between 0 and the limit |
| BotPolicy.CandidatesNeverIdle | examples/tutorial.cc:99-106 | every builder candidate is a scanned unit with a non-empty queue whose first order is not the structure's ability |
| BotPolicy.CandidatesCount | examples/tutorial.cc:99-106 | each unit appears in the builder list exactly as often as the scan pushes it |
| BotPolicy.PushCountUnique | examples/tutorial.cc:95-106 | with distinct tags, a unit is pushed only at its own position |
| BotPolicy.CandidateMultiplicity | examples/tutorial.cc:95-106 | with distinct tags, a scanned unit appears once per order before its first matching order, and an unscanned unit not at all |
| BotPolicy.StructureOutcomeRule | examples/tutorial.cc:87-120 | the builder either returns false with no command, exactly when the limit is hit at the start of a visit, or returns true with exactly limit-minus-count single-unit build commands, addressed to the candidates in order and then to placeholders |
| BotPolicy.BuildCommandsAddress | examples/tutorial.cc:109-118 | after resizing to k, exactly k commands are issued, the i-th to the i-th candidate or to a placeholder |
| BotPolicy.SupplyDepotRule | examples/tutorial.cc:122-131 | nothing and false when food used is at most cap minus 2; otherwise at most one depot build through one unit, a candidate SCV or the placeholder |
| BotPolicy.BarracksRule | examples/tutorial.cc:133-140 | builds only with fewer than 3 barracks and at least one depot, otherwise false with nothing; at most 3 commands, each through one unit, a candidate SCV or the placeholder |
| BotPolicy.NearestMineralUnique | examples/tutorial.cc:145-153 | the nearest-first-on-tie choice of mineral field is unique |
| BotPolicy.AttackRule | examples/tutorial.cc:162-177 | the attack fires exactly with at least 8 marines, sending every marine tag in snapshot order to the first enemy start location, otherwise false with nothing |
| BotPolicy.StepBound | examples/tutorial.cc:22-27 | one step issues at most six commands |
| TutorialBot.Bot.constructor | examples/tutorial.cc:9 | the staging point starts at the origin |
| TutorialBot.Bot.OnGameStart | examples/tutorial.cc:12-20 | the staging point becomes the upper point when the first own command center is at x = 29.5, the lower point otherwise, and nothing else changes |
| TutorialBot.Bot.OnStep | examples/tutorial.cc:22-27 | the commands of the depot, barracks, marine and attack rules, concatenated in that order, at most six |
| TutorialBot.Bot.OnUnitIdle | examples/tutorial.cc:29-49 | a command center trains an SCV iff it has no harvesters or fewer than ideal; an SCV is sent to the nearest mineral field, or gets nothing when there is none; other units get nothing |
| TutorialBot.Bot.OnUnitCreated | examples/tutorial.cc:51-60 | a new barracks rallies to the staging point; other units get nothing |
| TutorialBot.Bot.TryBuildMarines | examples/tutorial.cc:63-85 | always true, and the commands are those of the marine production rule (at most one) |
| TutorialBot.Bot.TryBuildStructure | examples/tutorial.cc:87-120 | the result and commands are those of the structure-builder rule |
| TutorialBot.Bot.ScanBuilders | examples/tutorial.cc:92-107 | the scan gives up exactly when the units before the last one reach the limit; otherwise it yields the candidate list and the count of units building |
| TutorialBot.Bot.ScanOrders | examples/tutorial.cc:99-106 | one unit's visit appends it once per order before its first matching order and reports whether it has a matching order |
| TutorialBot.Bot.IssueBuildCommands | examples/tutorial.cc:111-118 | one build command per builder, in list order, the i-th at the builder's position moved by the i-th offset |
| TutorialBot.Bot.TryBuildSupplyDepot | examples/tutorial.cc:122-131 | the depot rule: false with nothing when food used is at most cap minus 2, at most one command |
| TutorialBot.Bot.TryBuildBarracks | examples/tutorial.cc:133-140 | the barracks rule: false with nothing unless fewer than 3 barracks and a depot exist, at most 3 commands |
| TutorialBot.Bot.FindNearestMineralPatch | examples/tutorial.cc:142-160 | none exactly when no neutral unit is a mineral field; otherwise the tag of a mineral field no farther than any other and strictly nearer than every earlier one |
| TutorialBot.Bot.TryAttackWithMarines | examples/tutorial.cc:162-177 | true exactly with at least 8 marines, and then one attack command on all marine tags, in order, at the first enemy start location |

## Left out

- `main` (examples/tutorial.cc:180-197): coordinator setup, game launch and map choice are host glue.
- The greeting written to standard output in `OnGameStart` is I/O.
- The game interfaces are not part of this model. Reading the observation becomes a `Snapshot` parameter. Issuing a unit command becomes an element of the returned command sequence.
- Random offsets:
  - they are the `jitter` parameter, counted from 0 in each structure-builder call;
  - the model does not capture that the source draws them from one shared random stream across calls, or that it draws two scalars per builder and scales them by 15.
- Floating point:
  - positions and squared distances are integers in half map units;
  - the two staging points are rounded to the nearest half unit;
  - the `float` maximum used as "no mineral field yet" is an explicit `None`.
- Order targets are not modelled: only an order's ability is read by the bot.
- Only the neutral mineral-field type `MineralField` counts as a mineral patch, as in the source. Other mineral-field variants are `OtherUnitType`.
- TryBuildSupplyDepot:
  - food used and food cap are unbounded integers;
  - the game interface's counter types are not part of this model, so a wrap-around of `cap - 2` in unsigned arithmetic (cap below 2) is not modelled.
- TutorialBot.Bot.TryBuildStructure: a negative size passed to `resize` wraps to a huge unsigned size and makes `resize` throw `std::length_error`; the model excludes it by a precondition rather than modelling the exception. The source's callers never produce one.
- TutorialBot.Bot.OnGameStart: an observation without an own command center is excluded by a precondition. Taking `front()` of the empty list is undefined.
- TutorialBot.Bot.TryAttackWithMarines: with eight or more marines and no known enemy start location, `front()` is undefined. This is excluded by a precondition.
- Return values the source ignores are returned by the methods but discarded in `OnStep`, as in the source.
