# BinaryBastion match simulation in Dafny

BinaryBastion is a two-player lane battle. The server holds one match
record: two player slots, an economy record for each connected player, and
lists of units, crown towers and projectiles. On every clock tick,
`update` moves the match forward:

1. projectiles fade;
2. each player earns passive income;
3. each unit picks a target, then attacks it or moves;
4. each tower fires at the nearest enemy unit in range;
5. dead units are removed;
6. a player whose king has fallen loses, and a decided match stays frozen.

Players join (`addPlayer`, `initPlayer`), leave (`removePlayer`) and buy
units (`spawnUnit`).

This project models `backend/gameLogic.js` in five layers:

- `entities.dfy` (module `Entities`): the unit table and the tower table, the field size and the other constants, and the records for units, towers, projectiles and economies. Distances are squared Euclidean distances on `real`, so `d < 200` becomes `DistSq < 40000`.
- `targeting.dfy` (module `Targeting`): the three accumulator scans of the tick.
  - The enemy-unit scan keeps the strictly nearest unit within aggro range.
  - The tower fallback scan keeps the strictly nearest standing enemy tower.
  - The tower's own scan starts at its range and takes any unit at a distance not above the best so far.
  - Each scan is a function over a prefix of the list, with a lemma that characterises what it picks, and a loop method proved equal to that function.
- `rules.dfy` (module `Rules`): every operation as a function on a `State` snapshot. The tick is split into its phases in source order. The unit and tower phases are folds over the list index, so a unit sees the effects of the units that acted before it in the same tick.
- `properties.dfy` (module `Properties`) and `invariants.dfy` (module `Invariants`): what the rules promise, and the invariant `ValidState` that every operation keeps.
  - Gold is even and stays between 0 and 100.
  - Each unit carries its type's stats and has `0 < hp <= maxHp`.
  - Unit ids and shot ids increase along their lists and stay below the id counter.
  - Each tower carries its kind's stats.
- `simulation.dfy` (module `Simulation`): the class `GameState`. Its fields are the match record, and its methods are the source's operations, written as the source writes them:
  - the reverse-index splice loops;
  - the loop over the economy records;
  - the per-unit and per-tower loops with their nearest-target accumulators.

  Each method is proved to produce `Rules.F(old(Snapshot()))`, and the public methods keep `Valid()`.

## Model

| member | source | states |
|---|---|---|
| Simulation.GameState.constructor | backend/gameLogic.js:16-23 | the match starts with both slots empty, no economy records, no units, towers or shots, no winner; the state is valid |
| Simulation.GameState.Reset | backend/gameLogic.js:25-32 | the match is emptied again; only the id counter carries over; the state is valid |
| Simulation.GameState.AddPlayer | backend/gameLogic.js:34-45 | answers p1 when the p1 slot is free (null or empty id), else p2 when that slot is free, else spectator; the new state is `Rules.Join`; validity is kept |
| Simulation.GameState.InitPlayer | backend/gameLogic.js:47-89 | writes the economy record (100 gold, cap 100, income stamped `now`) and appends the king then the two princesses, via the loop over y = 100, 500 |
| Simulation.GameState.RemovePlayer | backend/gameLogic.js:91-105 | clears each slot holding the id and deletes its economy record; validity is kept |
| Simulation.GameState.SpawnUnit | backend/gameLogic.js:107-139 | runs the source's guards in order; on success it deducts the cost and appends the unit with a fresh id; validity is kept |
| Simulation.GameState.Update | backend/gameLogic.js:141-278 | a decided match is left alone; otherwise the six phases run in order and the result is `Rules.Tick`; validity is kept |
| Simulation.GameState.DecayProjectiles | backend/gameLogic.js:145-150 | the projectile list becomes `Decayed` of the old list; nothing else changes |
| Simulation.DecayInPlace | backend/gameLogic.js:146-150 | the reverse loop that ages each shot and splices out the spent ones yields exactly `Decayed` of its input |
| Simulation.GameState.PayIncome | backend/gameLogic.js:152-158 | every economy record is replaced by its `Accrue` at `now`, and no record is added or removed |
| Simulation.GameState.RunUnits | backend/gameLogic.js:160-225 | after the per-unit loop the state is `UnitPhase` over every unit |
| Simulation.GameState.ActUnit | backend/gameLogic.js:161-224 | one unit's turn: select a target with the scan loops, then engage it or move forward; equals `Rules.UnitAct` |
| Simulation.GameState.EngageUnit | backend/gameLogic.js:189-219 | a unit against an enemy unit, with reach = range + (radius or 10); equals `Rules.EngageUnit` |
| Simulation.GameState.EngageTower | backend/gameLogic.js:189-219 | a unit against an enemy tower, with reach = range + 40 for a king or + 30 for a princess; equals `Rules.EngageTower` |
| Simulation.GameState.RunTowers | backend/gameLogic.js:227-258 | after the per-tower loop the state is `TowerPhase` over every tower |
| Simulation.GameState.ActTower | backend/gameLogic.js:228-257 | one tower's turn: skip when down or still reloading, else scan and fire; equals `Rules.TowerAct` |
| Simulation.GameState.RemoveDead | backend/gameLogic.js:260-265 | the unit list becomes `Living` of the old list; nothing else changes |
| Simulation.RemoveDeadInPlace | backend/gameLogic.js:261-265 | the reverse splice loop yields exactly the units with hp > 0, in order |
| Simulation.GameState.CheckWinner | backend/gameLogic.js:267-277 | the winner becomes `WinCheck` of the kings' survival and the slots |
| Targeting.SelectUnitTarget | backend/gameLogic.js:161-187 | the two accumulator loops (`minDist` starting at infinity) return exactly `UnitTarget` |
| Targeting.SelectTowerTarget | backend/gameLogic.js:232-244 | the accumulator loop (`minDist` starting at the range) returns exactly `TowerTarget` |
| Targeting.AggroScan | backend/gameLogic.js:165-174 | a unit found after scanning a prefix lies in that prefix, is an enemy, and is strictly inside the aggro radius |
| Targeting.TowerScan | backend/gameLogic.js:176-187 | a tower found after scanning a prefix lies in that prefix, is an enemy, and has hp > 0 |
| Targeting.RangeScan | backend/gameLogic.js:233-244 | a unit found after scanning a prefix lies in that prefix |
| Targeting.UnitTarget | backend/gameLogic.js:161-187 | a chosen unit or tower index is in bounds and belongs to the other side |
| Targeting.TowerTarget | backend/gameLogic.js:233-244 | a chosen unit index is in bounds |
| Targeting.AggroScanNearestFirst | backend/gameLogic.js:165-174 | the scan finds a unit iff some enemy lies strictly within 200; the unit it finds is a nearest one, and strictly nearer than every earlier candidate (ties go to the first) |
| Targeting.TowerScanNearestFirst | backend/gameLogic.js:176-187 | the scan finds a tower iff some enemy tower stands; the tower it finds is a nearest standing one, ties to the first |
| Targeting.RangeScanNearestLast | backend/gameLogic.js:233-244 | the scan finds a unit iff some enemy unit is within range (inclusive); the unit it finds is a nearest one, and strictly nearer than every LATER candidate (ties go to the last) |
| Targeting.UnitTargetPriority | backend/gameLogic.js:161-187 | an enemy unit in aggro range beats every tower; otherwise the target is a nearest standing enemy tower; there is no target iff neither exists |
| Rules.KingStatus | backend/gameLogic.js:267-274 | the tower loop sets each flag exactly when that role has a king with hp > 0 |
| Rules.Advance | backend/gameLogic.js:220-224 | the unit moves exactly `|speed|` along x, toward the enemy side (+ for p1, - for p2), keeps its y and every other field; every other unit, the towers, the shots, the counter, the slots, the economy and the winner are unchanged |
| Rules.EngageUnit | backend/gameLogic.js:189-219 | engaging never touches slots, economy or winner, keeps list lengths, and never lowers the counter or shortens the shot list |
| Rules.EngageTower | backend/gameLogic.js:189-219 | the same frame for a tower target |
| Rules.UnitAct | backend/gameLogic.js:161-224 | the same frame for a whole unit turn |
| Rules.UnitPhase | backend/gameLogic.js:160-225 | the same frame for the units' loop |
| Rules.Fire | backend/gameLogic.js:246-256 | a tower shot keeps the frame and the list lengths |
| Rules.TowerAct | backend/gameLogic.js:228-257 | the same frame for a tower turn |
| Rules.TowerPhase | backend/gameLogic.js:227-258 | the same frame for the towers' loop |
| Rules.Decayed | backend/gameLogic.js:146-150 | decay never lengthens the shot list |
| Rules.Living | backend/gameLogic.js:261-265 | cleanup never lengthens the unit list |
| Properties.JoinFillsFirstFreeSlot | backend/gameLogic.js:34-45 | p1 is filled iff it is free, p2 iff p1 is taken and p2 is free; a spectator changes nothing; the exact new state in each case |
| Properties.RoleTowersLayout | backend/gameLogic.js:55-88 | exactly three towers per role: a king at (80 or 720, 300) and princesses at (180 or 620, 100/500), each at full hp with `lastShot = 0`; p2's layout mirrors p1's across the width |
| Properties.LeaveFreesSlot | backend/gameLogic.js:91-105 | only the slot holding the id is cleared, and only its record is deleted; units, towers, shots and the winner are untouched |
| Properties.JoinThenLeaveKeepsTowers | backend/gameLogic.js:34-105 | joining an empty p1 slot and leaving restores the state, except that the three towers stay |
| Properties.SecondJoinThenLeaveKeepsTowers | backend/gameLogic.js:34-105 | the same after taking the p2 slot |
| Properties.RejoinDuplicatesTowerIds | backend/gameLogic.js:47-105 | after a leave and a new join in the p1 slot, the list holds six towers, two of them with id `king-p1` |
| Properties.SpawnChangesIffAccepted | backend/gameLogic.js:107-139 | a spawn changes the state iff every guard passes; otherwise it is a no-op |
| Properties.SpawnRefusals | backend/gameLogic.js:108-118 | no record, a winner set, an unknown type, gold below cost, p1 with x > 380, p2 with x < 420: each alone makes the spawn a no-op |
| Properties.SpawnEffect | backend/gameLogic.js:120-138 | gold drops by exactly the cost and stays >= 0; exactly one unit is appended, carrying the next id, the owner's role, the type, the position `(x, y)`, and the table's hp, damage, range, radius and cooldown; `hp = maxHp`; speed is the table speed for p1 and its negation for p2; `lastAttack = 0`; nothing else changes |
| Properties.GruntPurchase | backend/gameLogic.js:5 | a grunt bought out of 100 gold leaves 80 gold and one 50-hp unit |
| Properties.AccrueRule | backend/gameLogic.js:153-158 | exactly +2 gold when the interval has elapsed and gold is under the cap; the stamp is renewed whenever the interval has elapsed, also at the cap |
| Properties.AccrueOncePerInterval | backend/gameLogic.js:153-158 | a second accrual less than 1000 ms after one that fired changes nothing |
| Properties.IncomeEveryPlayer | backend/gameLogic.js:153 | every record is accrued by the same rule, and none is added or removed |
| Properties.DecayedMembers | backend/gameLogic.js:146-150 | the survivors are exactly the old shots aged by 20 whose life stays > 0 |
| Properties.DecayedAppend | backend/gameLogic.js:146-150 | decay works shot by shot: it distributes over concatenation |
| Properties.LivingMembers | backend/gameLogic.js:261-265 | the survivors are exactly the old units with hp > 0 |
| Properties.LivingAppend | backend/gameLogic.js:261-265 | cleanup works unit by unit, so the relative order is kept |
| Properties.LivingIdempotent | backend/gameLogic.js:261-265 | a second cleanup removes nothing |
| Properties.UnitActEffect | backend/gameLogic.js:189-224 | a strike takes exactly the unit's damage off its target and stamps `lastAttack := now` on the striker, which does not move; it emits one shot with life 100; every other unit and tower is unchanged. A unit that does not strike changes no hp, towers or shots, only its own position at most |
| Properties.UnitActBranches | backend/gameLogic.js:201-224 | the three non-striking cases apart: with no target the unit advances exactly `|speed|` along its lane; in reach but still cooling down nothing at all changes (the unit waits); out of reach it takes one `step` toward its target |
| Properties.EngageUnitStrike | backend/gameLogic.js:201-213 | a strike on an enemy unit: the exact new unit list (target hit, striker stamped, the rest unchanged), the towers unchanged, and one shot from striker to target |
| Properties.EngageTowerStrike | backend/gameLogic.js:201-213 | a strike on an enemy tower: the tower loses exactly the damage, the striker is stamped, and one shot from striker to tower |
| Properties.NoSecondStrikeWithinCooldown | backend/gameLogic.js:203-205 | a unit that has just struck cannot strike again within its cooldown |
| Properties.UnitActStamps | backend/gameLogic.js:189-224 | in a unit turn only the acting unit can change its attack stamp, and only to `now`; every unit keeps its id and cooldown |
| Properties.TowerActStamps | backend/gameLogic.js:228-257 | a tower turn leaves every unit's id, cooldown and attack stamp alone |
| Properties.UnitPhaseRestamps | backend/gameLogic.js:160-225 | through the units' loop every unit keeps its id and cooldown, and its stamp is kept or renewed to `now` |
| Properties.UnitPhaseKeepsPending | backend/gameLogic.js:160-225 | a unit that has not had its turn yet still has its stamp and cooldown from the start of the loop |
| Properties.UnitPhaseKeepsActed | backend/gameLogic.js:160-225 | once a unit has had its turn, the rest of the loop leaves its id, cooldown and stamp as that turn left them |
| Properties.TowerPhaseKeepsStamps | backend/gameLogic.js:227-258 | the towers' loop leaves every unit's id, cooldown and stamp alone |
| Properties.FoughtRestamps | backend/gameLogic.js:160-258 | after combat every unit has its id and cooldown, and its stamp from before the tick or `now` |
| Properties.StrikerStampedAfterFight | backend/gameLogic.js:160-258 | a unit that strikes on its turn leaves combat stamped `now` with its cooldown |
| Properties.TickRestamps | backend/gameLogic.js:141-278 | every unit left after a tick matches a unit from before it by id and cooldown, with the same stamp or `now` |
| Properties.NoStrikeWithinCooldownInTick | backend/gameLogic.js:160-225 | in a tick at `later`, a unit whose stamp is within its cooldown of `later` does not strike on its turn |
| Properties.TowerActEffect | backend/gameLogic.js:228-257 | a tower that stands, is reloaded and has a target takes exactly its damage off that unit, stamps `lastShot` and emits one shot with life 200; otherwise nothing changes |
| Properties.UnitPhaseFrame | backend/gameLogic.js:160-225 | the units' loop leaves slots, economy and winner alone, and only appends shots |
| Properties.TowerPhaseFrame | backend/gameLogic.js:227-258 | the same for the towers' loop |
| Properties.TickFrozen | backend/gameLogic.js:142 | a match with a winner is not changed by a tick; a tick that sets a winner is followed by no change |
| Properties.TickOutline | backend/gameLogic.js:141-278 | a live tick keeps the slots, pays income, starts the shot list with the decayed old shots, keeps the number of towers, and leaves exactly the units of the combat result with hp > 0, in order |
| Properties.TickWinner | backend/gameLogic.js:267-277 | Player 2 wins iff p1 is occupied and has no standing king; failing that, Player 1 wins iff p2 is occupied and has none; otherwise there is no winner |
| Invariants.AccrueKeepsEconomy | backend/gameLogic.js:153-158 | income never pushes gold past the cap of 100, since every cost and step is even |
| Invariants.DecayedShotsOk | backend/gameLogic.js:146-150 | decay keeps shot ids increasing and bounded, and leaves every shot with life > 0 |
| Invariants.LivingIdsOk | backend/gameLogic.js:261-265 | cleanup keeps unit ids increasing and bounded |
| Invariants.UnitActEvolves | backend/gameLogic.js:189-224 | a unit turn keeps every entity's identity and stats, and gains no hp |
| Invariants.TowerActEvolves | backend/gameLogic.js:228-257 | the same for a tower turn |
| Invariants.UnitPhaseEvolves | backend/gameLogic.js:160-225 | the same across the whole units' loop |
| Invariants.TowerPhaseEvolves | backend/gameLogic.js:227-258 | the same across the whole towers' loop |
| Invariants.FightEvolves | backend/gameLogic.js:160-258 | combat leaves every unit and tower with its table stats and no more hp than before |
| Invariants.InitialValid | backend/gameLogic.js:25-32 | the empty match is valid |
| Invariants.JoinPreservesValid | backend/gameLogic.js:34-89 | joining keeps the invariant |
| Invariants.LeavePreservesValid | backend/gameLogic.js:91-105 | leaving keeps the invariant |
| Invariants.SpawnPreservesValid | backend/gameLogic.js:107-139 | a spawn keeps the invariant (gold 0..100 and even, stats, fresh increasing ids) |
| Invariants.TickPreservesValid | backend/gameLogic.js:141-278 | a tick keeps the invariant; in particular every unit left has `0 < hp <= maxHp` |
| Invariants.TowersNeverRemoved | backend/gameLogic.js:227-265 | a tick keeps every tower, in place, with its identity and stats, and without gaining hp |
| Invariants.StrikeOncePerCooldown | backend/gameLogic.js:141-278 | a unit that strikes in the tick at `now` leaves it stamped `now`, and in a next tick at a time within its cooldown it does not strike again: two ticks within the cooldown apply its damage at most once |
| Invariants.KingDownEndsMatch | backend/gameLogic.js:267-277 | when p1 is occupied and every p1 king is down, the next tick declares Player 2, and the match is frozen from then on |

## Left out

- Floating point is not modelled. Positions are exact `real`s. `Math.hypot(..) < r` and `<= r` become comparisons of squared distances, which agree with the source because every range and radius is non-negative.
- Movement toward a target (`atan2`, `cos`, `sin`, backend/gameLogic.js:216-218) is the parameter `step` of `Update`. Nothing geometric is proved about it. The forward move without a target (backend/gameLogic.js:222-223) is exact.
- `Date.now()` is the parameter `now`. The `Date.now() + Math.random()` and `Math.random()` ids become one counter `nextId`, which units and projectiles share. `reset` keeps the counter running, so ids stay fresh across matches.
- Projectile colours and the unit fields `color` and `targetId` are not modelled: nothing in the core reads them. `GAME_HEIGHT` is unused by the core and has no counterpart in the model.
- JavaScript property lookups that reach the prototype chain are not modelled. Examples: a socket id `"constructor"` in `playerData`, or a type name `"toString"` in `UNIT_TYPES`. The model looks up own keys only.
- Non-numeric spawn coordinates (`NaN`, strings) are not modelled: the model takes `x` and `y` as `real`.
- The winner strings `'Player 1'` and `'Player 2'` become the datatype `Winner`.
- Only non-empty socket ids occupy a slot, which matches JavaScript truthiness.
- Four behaviours of the code are kept as written rather than corrected:
  - tower hp can go below zero, because the last hit is not clamped;
  - a unit in reach whose cooldown has not elapsed waits in place: it neither attacks nor moves (`Properties.UnitActBranches`);
  - a player who leaves and another who takes the slot leave two sets of that role's towers, with repeated ids (`Properties.RejoinDuplicatesTowerIds`);
  - the same socket id can hold both slots if it joins twice.
- The server (`backend/server.js`: HTTP routes, socket wiring, the 50 ms interval that calls `update`), the database (`backend/database.js`) and the frontend are not part of this model. The "20ms tick" comment next to the decay step is only a comment: the decay is 20 per tick whatever the interval.
- Concurrency is not modelled. Calls arrive one at a time, as on the single JavaScript event loop.
