# rogueforce core, modelled in Dafny

rogueforce is a two-player, turn-based tactics game played on a grid. Each side fields a
general who commands minions through tactics, casts skills over areas, and lays statuses
and effects on the units it hits. Two peers run the same turn loop in lockstep and
exchange `turn#command` lines. A rule-based AI can play one side. A strategic layer
spends requisition points to deploy generals and earns them from fortresses.

This project models that core as immutable Dafny records and pure step functions, and
proves properties of each step. The model covers:

- the battleground grid;
- entity movement with its recursive push chains;
- sieves and area shapes;
- combat, death and cloning;
- skills and their cooldowns;
- statuses, effects, tactics and minion updates;
- formations and the general's own methods, including the Conway and Emperor variants;
- the battle command language with its dispatch and winner check;
- the window's turn loop, and the message log's six-line buffer on its own (nothing in the turn loop writes to it);
- the scenario's requisition bookkeeping;
- the AI's evaluators and controller;
- the sprite animator.

Modules follow the original files:

| file | module | original |
|---|---|---|
| wrappers.dfy | Wrappers | Option / Result carriers for Python's exceptions |
| seqs.dfy, text.dfy | Seqs, Text | list idioms; `str()` / `int()` of integers |
| grid.dfy | Grid | battleground.py |
| state.dfy | State | the records shared by every module (entities, tiles, statuses, skills, effects, world) |
| movement.dfy, combat.dfy | Movement, Combat | entity.py, minion.py |
| areas.dfy | Areas | sieve.py, area.py |
| cooldown.dfy, skills.dfy | Cooldown, Skills | skill.py |
| statuses.dfy | Statuses | status.py |
| effects.dfy | Effects | effect.py |
| tactics.dfy, minions.dfy | Tactics, Minions | tactic.py, minion.py |
| formation.dfy | Formation | formation.py |
| roster.dfy, generals.dfy, variants.dfy | Roster, Generals, Variants | general.py |
| battle.dfy | Battle | battle.py |
| window.dfy | Window | window.py |
| scenario.dfy | Scenario | scenario.py |
| evaluators.dfy, ai.dfy | Evaluators, Ai | ai/evaluators_optimized.py, ai/ai_controller_optimized.py |
| animator.dfy | Animator | sprite_animator.py |

Python exceptions are `Crash` results, named after the exception the original would
raise (`IndexError`, `KeyError`, `ValueError`, `TypeError`, `AttributeError`,
`RecursionError`). A configuration the original never builds, such as a general missing
from the unit table, is the crash `outside the model`. Where the original has a defect,
the model keeps the code as written. Where a defect breaks a promise the code evidently
makes, the model defines both versions and proves the difference (see Findings). One
exception: the AI's tactic stages (`Ai.TryTactical`, `Ai.SmartTactic`) test tactic orders
against the intended spam rule, which as written never rejects one.

## Model

| member | source | states |
|---|---|---|
| Grid.At | battleground.py:41 | a cell in the dictionary reads as its tile; a cell outside it reads as an impassable, empty tile |
| Grid.DefaultTiles | battleground.py:54-63 | the default arena holds exactly the cells of the width by height rectangle, all empty; border cells are impassable '#' walls and every other cell passable '.' floor; the keys are listed once each |
| Grid.DefaultOrderCells | battleground.py:55-56 | the column-major double loop visits every cell of the rectangle exactly once |
| Grid.DefaultArenaClosed | battleground.py:54-63 | every passable cell of a default arena has all eight neighbours in the dictionary |
| Grid.LoadTiles | battleground.py:74-85 | a loaded map holds exactly the characters of its first `height` lines, newline included; a cell is passable exactly when its character is '.'; the fortress anchors are exactly the ':' cells, each once |
| Grid.LoadOrderCells | battleground.py:78-84 | the row-by-row read visits every cell of those lines exactly once |
| Grid.Anchors | battleground.py:82-83 | the anchors collected are exactly the ':' cells among those read |
| Grid.AnchorsNoDup | battleground.py:82-83 | no fortress anchor is collected twice |
| Grid.WithSentinel | battleground.py:46 | the scratch cell (-1, -1) is added last, as a passable empty tile outside the arena; every other tile is untouched (see also battleground.py:71-72) |
| Movement.PushTest | entity.py:128-130 | the push test passes exactly when the step is non-zero and the whole line of pushable units ahead ends on a free passable cell; a zero step on a pushable unit is the endless recursion |
| Movement.Chain | entity.py:128-130 | the units a push moves start with the pushed unit, are all pushable and all lie at or beyond it along the step |
| Movement.Push | entity.py:178-190 | everything ahead moves first; the pushed unit ends one step further, flagged as pushed; units behind it are untouched and no unit, tile or list appears or disappears (see also entity.py:170-173) |
| Movement.PushMovesChain | entity.py:184-190 | every unit of the chain moves one step along the push and is left flagged as pushed (see also entity.py:170-173) |
| Movement.PushSparesOthers | entity.py:184-190 | every unit outside the chain is left exactly as it was (see also entity.py:170-173) |
| Movement.PushSparesUnpushable | entity.py:257-258 | a push never moves a unit that cannot be pushed (a giant, a general, a fortress) (see also general.py:100-110) |
| Movement.PushTiles | entity.py:185-188 | a push rewrites no cell behind the pushed unit; it vacates the unit's old cell and the unit holds the next one |
| Movement.StepKeepsTracked | entity.py:187-190 | a single-cell step keeps every tile's occupant standing on that tile |
| Movement.PushKeepsTracked | entity.py:170-190 | a whole push keeps every tile's occupant standing on that tile |
| Movement.CanMove | entity.py:132-137 | a step is allowed exactly when the next cell is passable for the unit and either empty or held by something the same step can push; a zero step onto a pushable ally is the endless recursion |
| Movement.MoveSmall | entity.py:178-203 | a unit flagged as pushed only loses the flag and reports no move; a move that happens puts the unit on the next cell, which names it, and empties the old cell |
| Movement.Cells | entity.py:261 | a body's cells are exactly the length-by-length square at its anchor (see also entity.py:271-273) |
| Movement.ScanCells | entity.py:260-268 | a multi-cell move is allowed exactly when every cell the body would cover is passable for it and holds nothing, the unit itself, or something the step can push |
| Movement.ClearBody | entity.py:270-273 | every cell of the body is emptied and nothing else changes |
| Movement.UpdateBody | entity.py:303-306 | every cell of the body names the unit and nothing else changes |
| Movement.Relay | entity.py:287-301 | after the move every cell of the new body names the unit and the cells it left, other than the old anchor cell rule, are empty |
| Movement.ScanBody | entity.py:260-268 | a passing scan leaves the destination anchor free or held by something pushable or by the unit itself |
| Movement.ScanClearsAnchor | entity.py:261-267 | the scan covers the destination anchor cell, so passing it clears that cell |
| Movement.BigStep | entity.py:284-301 | a multi-cell step moves the anchor by the step and every cell of the new body names the unit |
| Movement.MoveBig | entity.py:279-301 | a multi-cell unit flagged as pushed only loses the flag; otherwise it either stays and nothing changes, or its anchor moves one step and its whole new body names it |
| Movement.BigStepShifts | entity.py:284-301 | the step moves the anchor by exactly d, changes nothing of the unit but its place, and leaves it where it was only for a zero step |
| Movement.BigAttempt | entity.py:283-301 | a refused multi-cell move changes nothing; an accepted one moves the anchor one step and lays the body down there |
| Movement.Move | entity.py:178-203 | whatever the unit's class, a move keeps every unit and tile, changes only the unit's place and pushed flag, and leaves it where it was or one step further (see also entity.py:279-301) |
| Movement.Teleport | entity.py:224-239 | a teleport succeeds exactly when the target cell is empty and passable for the unit; on success the unit stands there, the target names it and its old cell is empty; on failure nothing changes |
| Movement.Vacate | entity.py:162-164 | dying empties every cell of the body, marks the unit dead and changes nothing else (see also entity.py:275-277) |
| Movement.RegisterKill | entity.py:216-219 | the killer gains one kill and its owner, when it has one, another; no other unit changes |
| Movement.MovePath | entity.py:205-214 | with an empty path nothing happens; a successful step consumes the head of the path and puts the unit on it; a refused step leaves the path as it was |
| Movement.Requeue | entity.py:208-211 | a refused path step puts the popped head back at the front |
| Movement.Host | entity.py:346-356 | a foreign side or a full fortress refuses the guest and changes nothing; otherwise a general not on the generals list raises, and an accepted guest always changes the world: it is appended to the guests, leaves the generals list, moves to the fortress anchor, and the first guest gives the fortress its side (see also entity.py:324-325) |
| Movement.Unhost | entity.py:365-370 | releasing a guest fails unless it is a guest; it removes the guest, appends it to the generals, and an emptied fortress turns neutral |
| Movement.HostThenUnhost | entity.py:346-370 | hosting a listed general that a compatible, not full fortress does not yet hold, then releasing it, restores the fortress's guests and the contents of the generals list |
| Movement.Spawn | entity.py:62-77 | a constructed unit gets a fresh identifier, every cell of its body names it, and no existing unit changes |
| Areas.InRangeIsCircle | sieve.py:68-72 | the in-range filter holds exactly on board cells within Euclidean distance `radius` of the general (see also area.py:181-182) |
| Areas.CircleColumn | area.py:181-182 | one column of the circle scan yields exactly that column's in-board cells inside the circle, in increasing y |
| Areas.CircleColumns | area.py:181-182 | the remaining columns yield exactly their in-board cells inside the circle, x outer and y inner |
| Areas.CircleMembers | area.py:181-182 | a circle's tiles are exactly the in-board cells whose squared distance to the centre is at most the squared radius, each once (none for a negative radius) |
| Areas.Walk | area.py:259-267 | Bresenham's walk visits consecutive x values from the start, one cell per column, and y changes by at most one step each time |
| Areas.WalkEnd | area.py:259-267 | the accumulated error decides the walk's final y: it has moved q steps when the error arithmetic says so |
| Areas.Orient | area.py:242-244 | a steep line's points are read back with their coordinates swapped (see also area.py:260-263) |
| Areas.LinePlan | area.py:240-258 | after the swaps the walk runs left to right over the longer axis, and the shorter axis moves no more than the longer one |
| Areas.PlanWalk | area.py:259-267 | the walk has one point per column |
| Areas.WalkLast | area.py:259-267 | the walk ends exactly on the target point |
| Areas.WalkSteps | area.py:259-267 | consecutive points of the walk are king moves apart |
| Areas.WalkShape | area.py:250-267 | the walk starts at the origin, ends at the target, and moves one king step at a time |
| Areas.OrientedWalk | area.py:240-270 | after swapping back the points run from one end of the line to the other in king steps |
| Areas.ReversePath | area.py:269-270 | reversing a king path gives a king path |
| Areas.LineShape | area.py:228-271 | before bounds clipping, a line from origin to target has one point per step of the longer axis, starts at the origin, ends at the target and moves in king steps |
| Areas.Picks | area.py:259-263 | the loop keeps each on-board point of the line and, for a steep line only, also the transposed tile of an off-board point whose transpose is on the board; nothing else, and never more tiles than points |
| Areas.LinePicked | area.py:228-271 | the line's tiles as written are the loop's picks over the full line from origin to target, in order, whichever way the walk ran |
| Areas.LineAgrees | area.py:259-263 | a line that is not steep, or whose points all lie on the board, gives the same tiles as written and as intended |
| Areas.LineTransposedExample | area.py:260-263 | as written, the steep line from (0, 0) to (1, 12) on a 20 by 10 board yields the tile (10, 1), which is not on the line |
| Areas.LineCellsFiltered | area.py:259-271 | as intended, the line's tiles are its full point list with the off-board points dropped, in order |
| Areas.PicksReverse | area.py:269-270 | the loop's picks commute with the final reversal |
| Areas.FilterReverse | area.py:269-270 | dropping off-board points commutes with the final reversal |
| Areas.GetTiles | area.py:65-81 | a reach test that raises on an on-board centre raises; a failed one yields nothing; otherwise the call raises IndexError exactly when the filter raises on one of the shape's cells, and else yields exactly the shape's cells that pass the filter, never more than the shape has (see also sieve.py:63-66) |
| Areas.GeneralSieve | sieve.py:35-88 | every filter that looks at the tile's entity rejects an empty tile, and is_enemy_general holds only on a tile holding a listed general |
| Areas.SieveApply | sieve.py:63-66 | applying a filter raises IndexError exactly for is_enemy_general with a general, on an occupied tile, when the generals list lacks the opponent's entry; otherwise it gives the filter's verdict (see also sieve.py:24-33) |
| Areas.Sift | area.py:81 | filtering a list of tiles raises IndexError exactly when the filter raises on one of them, and otherwise keeps the passing tiles in order |
| Areas.EnemyGeneralGone | sieve.py:66 | once the opponent's entry is missing from the generals list (as after a fortress hosts that general), the Emperor's curse area of every tile filtered by is_enemy_general raises IndexError on any board with an occupied tile (see also general.py:337-338) |
| Areas.CloneArea | area.py:40-51 | a clone keeps filter, reach and self-centring, is bound to the new general, resets a circle's radius to 5 and a line's origin to (0, 0); cloning a custom area raises (see also area.py:187-197) |
| Areas.SieveRelations | sieve.py:24-88 | without a general only is_empty can hold; with one, a tile holding a unit or nothing is exactly one of empty, ally, enemy; the general's own tile is an ally tile; ally minion means ally and minion; every minion tile is a unit tile; a tile is passable for the general's side exactly when it is a passable tile that is empty or allied (see also battleground.py:133-142) |
| Combat.Damage | minion.py:143 | a strike removes nothing when the power does not exceed the armor for its type, and exactly the excess otherwise |
| Combat.DamageMonotone | minion.py:143 | more armor never lets more damage through |
| Combat.Credit | entity.py:216-219 | the attacker, or the owner of the status that struck, is credited the kill; only kill counts change (see also status.py:42-45) |
| Combat.AdjustAlive | minion.py:91-92 | the minion count of the general at the side's list index changes; a side that indexes no general raises; nothing but that general's record changes |
| Combat.Die | minion.py:88-92 | a human-form Emperor does not die but uses skill 3 (raising when it has no fourth skill); any other unit ends dead with its body's cells empty, and no hit points or kill counts change (see also entity.py:162-164, entity.py:275-277, general.py:327-332) |
| Combat.MinionDie | minion.py:88-92 | a dying minion is dead with its cells empty; only a rostered minion can raise, through its side's general lookup |
| Combat.MinionDeathCounted | minion.py:91-92 | a rostered minion's death lowers its general's living-minion count by exactly one |
| Combat.Wound | minion.py:131-151 | the target loses the damage its armor lets through, never dropping below 0; a surviving target changes in nothing else |
| Combat.Slay | minion.py:148-151 | a killing blow leaves the target at 0 hit points, dead unless it is a human-form Emperor, and credits the attacking unit |
| Combat.KillCredited | minion.py:143-151 | a blow that takes the last hit points kills the target and credits the killer |
| Combat.MineStruck | entity.py:385-388 | a mine struck by something attackable strikes back and is then gone; struck by an effect it is simply gone; a status cannot strike it; two mines striking each other never end |
| Combat.GetAttacked | entity.py:117-126 | plain entities and fortresses ignore attacks; a mine cannot take a nuke's extra arguments; anything with hit points ends with them reduced by exactly the damage let through, floored at 0 (see also minion.py:116-151, entity.py:321-322, entity.py:385-388) |
| Combat.HealUnit | minion.py:153-163 | healing adds the amount but never above the maximum, never lowers hit points for a non-negative amount, and leaves units without hit points alone |
| Combat.FirstHostile | minion.py:106-110 | the scan stops at the first hostile cell, and reports none only when no cell is hostile |
| Combat.SmallProbes | minion.py:103-107 | a small unit probes four orthogonal neighbours, eight with diagonals |
| Combat.SmallProbesOrthogonal | minion.py:103 | without diagonals every probed cell is an orthogonal neighbour (see also minion.py:107) |
| Combat.BigProbesNeverBehind | minion.py:268-269 | a side-0 giant never probes behind its anchor column |
| Combat.EnemyReachable | minion.py:94-110 | the enemy found stands on a probed cell and is attackable and of another side; none is found only when no probed cell holds one (see also minion.py:262-273) |
| Combat.TryAttack | minion.py:165-174 | an attack happens exactly when an enemy is reachable; with none nothing changes |
| Combat.Fresh | minion.py:74-86 | a clone is a new unit of the template's class at the cell, alive, unowned, without statuses or kills; a giant's maximum hit points are 30 times its length (see also minion.py:245-260, minion.py:324-336, entity.py:380-383) |
| Combat.CloneUnit | minion.py:84-86 | a clone appears exactly when every cell of its body is inside and empty and the anchor is passable; it gets the next identifier and its cell names it; otherwise nothing changes (see also minion.py:255-260) |
| Cooldown.NewSkill | skill.py:15-26 | a new skill starts at cooldown 0, so it is ready exactly when its maximum cooldown is not positive (see also skill.py:53-54) |
| Cooldown.Dummy | skill.py:67-70 | an empty slot's dummy skill is ready from the start |
| Cooldown.ChangeCd | skill.py:38-40 | a cooldown change lands on cd + delta clamped to [0, max]; nothing else about the skill changes; a dummy skill ignores it (see also skill.py:72-73) |
| Cooldown.Tick | skill.py:59-60 | a tick adds one to a cooldown below its maximum and otherwise changes nothing (see also skill.py:78-79) |
| Cooldown.ResetCd | skill.py:56-57 | a reset puts the cooldown back to 0; a dummy skill ignores it (see also skill.py:75-76) |
| Cooldown.ReadyAfterMaxCd | skill.py:53-60 | after n ticks the cooldown is min(cd + n, max), so a skill is ready again exactly after max - cd ticks |
| Cooldown.DummyInert | skill.py:72-79 | no change, reset or number of ticks alters a dummy skill |
| Cooldown.ChangeAllCd | general.py:258-259 | every skill of the list gets the same cooldown change, in place |
| Cooldown.TickAll | general.py:217-218 | every skill of the list ticks once, in place |
| Skills.Resident | skill.py:165 | the unit a skill finds on a cell is the cell's occupant, and only when that unit is still on record (see also battleground.py:41) |
| Skills.HealOn | skill.py:164-168 | heal is truthy exactly when the cell holds a unit with hit points below its maximum, and only then heals it; otherwise the world is unchanged |
| Skills.HealNeverOverfills | skill.py:167 | a non-negative heal never lifts hit points above the maximum and never lowers them (see also minion.py:67-70) |
| Skills.PlaceOn | skill.py:197-200 | place_entity fails exactly when the clone cannot stand on the cell; otherwise the clone joins the world owned by the general and every other unit is untouched |
| Skills.PushOne | skill.py:239-243 | one neighbour is pushed exactly when its offset is not (0, 0), the cell is inside, holds a unit and that unit can be pushed that way; otherwise nothing changes |
| Skills.PushAround | skill.py:235-244 | water_pusher only ever moves units; a falsy result leaves the world as it was |
| Skills.PushSparesCentre | skill.py:241 | the unit on the centre cell is never pushed by water_pusher |
| Skills.ShiftCds | skill.py:103-104 | only a general's skills have their cooldowns shifted, all by the same delta |
| Skills.ConsumeOn | skill.py:99-105 | consume on an empty cell only heals the general and shifts its cooldowns; on an occupied cell it fails exactly when the occupant's death fails; it is always truthy |
| Skills.ConsumeShiftsCds | skill.py:100-104 | after consuming another unit, that unit is dead and the general's skills carry the cooldown shift |
| Skills.NukeOn | skill.py:184-187 | nuke attacks the cell's occupant (with the general as attacker) and succeeds exactly when that attack does; an empty cell changes nothing; it is always truthy |
| Skills.StatusOn | skill.py:89-92 | apply_status targets the general when self-cast and the cell's occupant otherwise; no other unit changes; a Vanished status is outside the model |
| Skills.AddAlive | skill.py:131 | the general's count of living minions moves by the given amount; a non-general is left alone |
| Skills.CreateAt | skill.py:124-133 | create_minions places a clone on each cell that takes one and raises the living-minion count by the number placed; truthy exactly when one was placed; nothing without a template |
| Skills.CreateCounts | skill.py:124-133 | the count of living minions and the minion list grow by exactly the minions placed, and a free first cell guarantees a truthy result |
| Skills.GliderCells | skill.py:173-175 | a glider has five cells including the chosen one |
| Skills.LwssCells | skill.py:180-182 | a lightweight spaceship has nine cells, none of them the chosen one |
| Skills.GliderOn | skill.py:170-175 | minion_glider does nothing when the 3x3 block around the cell leaves the grid, and otherwise creates minions on the glider's cells |
| Skills.GliderInside | skill.py:172 | when the 3x3 block is inside, every glider cell is inside |
| Skills.LwssOn | skill.py:177-182 | minion_lwss does nothing when the 5x5 block around the cell leaves the grid, and otherwise creates minions on the spaceship's cells |
| Skills.LwssInside | skill.py:179 | when the 5x5 block is inside, every spaceship cell is inside |
| Skills.Dark | skill.py:137 | darkness is a neutral temporary effect of the given duration on the cell |
| Skills.DarknessOn | skill.py:135-138 | darkness is truthy exactly on a passable cell, adds one effect there and never touches the units |
| Skills.WaveShape | skill.py:225-227 | away from the edge, side 0's waves fan out behind the general in pairs, even waves above its row and odd waves below |
| Skills.WaveAt | effect.py:334-336 | a wave carries its side, cell and power and has struck nobody |
| Skills.LaunchedDims | skill.py:228 | which waves fall inside depends only on the grid's dimensions |
| Skills.Waves | skill.py:225-229 | each wave inside the grid adds its effect (two list entries) and a wave outside adds none |
| Skills.SonicOn | skill.py:223-230 | sonic_waves is truthy exactly when it has a positive number of waves and adds the waves that fall inside the grid |
| Skills.RestockOn | skill.py:213-221 | restock_minions fails exactly when the selected tactic is not in the tactic list; otherwise it keeps the general's skills and tactics and leaves its living-minion count equal to its living minions |
| Skills.Replenish | skill.py:215-218 | the temporary minion count used to place the formation is restored afterwards |
| Skills.OnTile | skill.py:33-35 | a function that takes no cell raises when given one |
| Skills.Safely | skill.py:135-182 | the skill functions that cannot raise only add to the world (see also skill.py:235-244) |
| Skills.ApplyAll | skill.py:28-36 | no cells give a falsy result and an unchanged world; the count of truthy applications never exceeds the cells |
| Skills.NukeCountsEveryCell | skill.py:184-187 | every cell a nuke hits counts as truthy |
| Skills.DarknessCountsPassable | skill.py:135-138 | darkness over a list of cells counts exactly its passable cells and never touches the units |
| Skills.TemplateFor | skill.py:128 | the template cloned is place_entity's entity or the general's minion (see also skill.py:198) |
| Skills.Use | skill.py:62-65 | a dummy skill does nothing; an area-less skill calls its function once; with an area, gathering cells that raises makes the use raise, no cells mean a falsy use, and otherwise the use is truthy when any cell's application was (see also skill.py:81-82) |
| Statuses.TruncDiv | status.py:119 | Python's int() of a quotient: the magnitude is floored and the sign follows the dividend |
| Statuses.MakePoison | status.py:247-252 | a poison for `ticks` strikes lasts ticks * (tbt + 1) updates and starts with its timer at 0 |
| Statuses.CloneStatus | status.py:34-35 | a clone keeps the name and well-formedness; a poison clone is rebuilt from power, tbt and ticks, other kinds keep their duration; cloning Vanished is outside the model (see also status.py:254-255) |
| Statuses.FirstNamed | status.py:26-27 | the first carried status with the given name, and none exactly when no status has it |
| Statuses.Drop | status.py:40 | list.remove at a position: the earlier statuses stay, the later ones move down by one |
| Statuses.Attach | status.py:24-32 | a status whose name the host already carries is not added and the carried one keeps the longer duration; otherwise it is appended; no other unit changes |
| Statuses.Construct | status.py:103-106 | the constructors' side effects: blindness swaps power out, empower adds int(power * ratio), a non-duplicate shield adds armor, FreezeCooldowns on a non-general ends at once, Vanished parks the host off the grid (see also status.py:118-120, status.py:130-134, status.py:327-330, status.py:368-374) |
| Statuses.End | status.py:37-40 | end() removes the status from its host and only its host, then undoes blindness, empower and shield (see also status.py:108-111, status.py:125-128, status.py:335-339, status.py:381-387) |
| Statuses.Return | status.py:383-387 | a vanished host returns home and resets its action counter when the home cell is free and passable, and dies otherwise |
| Statuses.Tick | status.py:136-139 | only a poison's tick changes its own status (the timer); every other tick leaves the status list as it was (see also status.py:257-263) |
| Statuses.UpdateAt | status.py:50-55 | update() lowers a positive duration by one and ends the status when it reaches zero; a non-positive duration is left alone (see also status.py:376-379) |
| Statuses.Decay | status.py:51-55 | the active half of update() never lengthens the status list |
| Statuses.RunStatuses | entity.py:241-242 | the status loop only touches its own unit's statuses and never lengthens its list |
| Statuses.PoisonCountdown | status.py:257-263 | while the timer is positive the poison only counts down |
| Statuses.PoisonCadence | status.py:246-263 | a poison built for `ticks` strikes exactly `ticks` times over its ticks * (tbt + 1) updates |
| Statuses.PoisonUpdateStep | status.py:50-55 | one update of a poison that is not ending lowers its duration by one and moves its timer as the strike count expects (see also status.py:257-263) |
| Statuses.SkipAfterEnd | entity.py:241-242 | removing an ending status while walking the list skips the status after it on that turn (see also status.py:37-40) |
| Statuses.PlainExpires | status.py:50-55 | a plain status with one update left is lowered to zero and ended without raising |
| Statuses.PlainDecrements | status.py:50-55 | a plain status that is not ending loses exactly one from its duration per update |
| Statuses.ShieldReverts | status.py:321-339 | a shield attached and then ended leaves the host's armor as it found it |
| Statuses.BlindReverts | status.py:101-111 | blindness sets power to 0 and its end hands the saved power back |
| Statuses.EmpowerReverts | status.py:113-128 | a fresh empower adds int(power * ratio) and its end takes exactly that back |
| Statuses.EmpowerStacks | status.py:24-32 | a duplicate empower is not attached yet adds its bonus, and ending the attached one takes back only the first bonus (see also status.py:113-128) |
| Statuses.FreezeSkipsNonGenerals | status.py:130-134 | FreezeCooldowns on a unit outside the generals list leaves the world exactly as it was |
| Statuses.VanishedReturns | status.py:367-387 | Vanished parks its host off the grid, and its end brings the host back to the cell it left |
| Statuses.VanishedParks | status.py:367-374 | attaching Vanished to a unit without one parks it at (-1, -1), frees its cell and records that cell in the new last status |
| Statuses.VanishedHome | status.py:381-387 | ending a Vanished status whose recorded cell is free and passable teleports the host back there, alive, with its action counter reset |
| Statuses.VanishedBlocked | status.py:383-387 | a vanished host whose home cell was taken dies when the status ends |
| Statuses.ActionTicks | status.py:149-151 | a Haste tick brings the next action nearer by the speedup and a Stunned tick resets it to its default, touching nothing else; a second stun tick changes nothing more (see also status.py:351-353) |
| Effects.NewEffect | effect.py:21-27 | a new effect fails on a cell outside the dictionary; otherwise it gets the next id, joins its cell's effect list without displacing the occupant, and joins the battle's list unless parked at x = -1; no unit changes |
| Effects.Lift | effect.py:50 | taking an effect off its cell fails exactly when it is not listed there, and changes only that cell's list (see also effect.py:57) |
| Effects.Drop | effect.py:51-53 | putting an effect on a cell fails exactly when the cell is outside the dictionary; it moves the effect there and appends it to that cell's list only (see also effect.py:58-60) |
| Effects.Dissapear | effect.py:37-39 | dissapear fails exactly when the effect is not on its cell's list; otherwise it removes one copy of it there and marks it dead, touching no unit or occupant |
| Effects.TeleportFx | effect.py:56-61 | an effect's teleport moves it and lists it on the new cell, never touching a unit or occupant |
| Effects.MoveFx | effect.py:49-54 | an effect's move is a teleport by the offset |
| Effects.Below | effect.py:42 | the occupant under an effect, failing exactly when its cell is outside the dictionary (see also effect.py:342) |
| Effects.DoAttack | effect.py:41-47 | do_attack ignores an empty cell or a unit that cannot be attacked, spares allies, and when asked to disappears on any attackable occupant |
| Effects.WaveHit | effect.py:341-345 | a wave strikes an attackable occupant, ally or not, only if it has not struck that unit before |
| Effects.WaveStrike | effect.py:344-345 | a wave's strike deals physical damage and remembers the unit struck |
| Effects.UpdateFx | effect.py:71 | a dead effect's update does nothing (see also effect.py:298, effect.py:348) |
| Effects.TempUpdate | effect.py:297-301 | a temporary effect counts its duration down and disappears once it is below zero, never touching the units |
| Effects.BlastUpdate | effect.py:185-193 | an explosion turns from yellow to orange to red, and on red strikes and disappears |
| Effects.WaveUpdate | effect.py:347-354 | a wave whose next cell is off the grid disappears without striking |
| Effects.BoulderUpdate | effect.py:114-126 | a boulder's update only changes effects and the units it strikes |
| Effects.Strike | effect.py:123-126 | after the delay a boulder's power moves by delta_power, and it disappears exactly when its path is spent or the power is exactly zero |
| Effects.PathStep | effect.py:117 | following the path moves the effect to the path's first cell and drops that cell from the path; an empty path changes nothing |
| Effects.LoopUpdate | effect.py:167-173 | the frame index wraps around the frame count; an index already past the frames raises |
| Effects.ArrowUpdate | effect.py:70-77 | an arrow's update only changes effects and the units it strikes |
| Effects.Updates | effect.py:297-301 | successive updates keep the frame of the world |
| Effects.TempLifetime | effect.py:287-301 | a temporary effect of duration d is still alive after d updates and gone after the next one |
| Effects.ExplosionThirdUpdate | effect.py:175-193 | an explosion created yellow is red after two updates and gone after the third |
| Tactics.Sign | tactic.py:9-10 | int(copysign(1, v)): 1 for zero and positive values, -1 for negative ones |
| Tactics.GeneralAt | tactic.py:9 | the general looked up by a Python list index fails exactly when the index is out of range (see also tactic.py:16) |
| Tactics.Square | tactic.py:20-23 | the 11x11 square scanned by disperse holds exactly the cells within 5 of the minion in both coordinates |
| Tactics.CrowdIn | tactic.py:24-28 | the cells counted for a quadrant are exactly the occupied cells of the square, other than the minion's own, whose offset signs name that quadrant |
| Tactics.Crowds | tactic.py:21-28 | one count per quadrant, in the dictionary's order |
| Tactics.FirstMin | tactic.py:29 | min over the dictionary picks a smallest count, the first one in order on ties |
| Tactics.Scatter | tactic.py:19-29 | disperse moves towards a least crowded quadrant, the earliest in dictionary order on ties |
| Tactics.Plan | tactic.py:8-50 | every moving tactic steps to a neighbouring cell; only the chasing tactics can fail; null does nothing and stop only sets the action counter |
| Tactics.Follow | minion.py:112-114 | following a tactic moves the minion by at most one cell in each direction and never adds or removes a unit |
| Tactics.ForwardBackwardOpposite | tactic.py:12-13 | forward and backward are opposite horizontal steps, forward going right for side 0 (see also tactic.py:31-32) |
| Tactics.CenterSidesOpposite | tactic.py:37-41 | go_center and go_sides are opposite vertical steps, go_center going up in the lower half of the grid |
| Tactics.ChaseNeverStill | tactic.py:8-17 | the chasing tactics always step diagonally, towards the enemy general for attack_general and towards the own general for defend_general, moving right or down also when level with it |
| Tactics.ChaseNeedsGeneral | tactic.py:9 | with no generals listed both chasing tactics raise (see also tactic.py:16) |
| Tactics.StopAndNull | tactic.py:46-50 | stop only sets the action counter to 1, and null changes nothing |
| Minions.ArrowFrom | minion.py:346-348 | an archer's arrow is a live effect of the archer's side and ranged power on the cell ahead of it (see also effect.py:64-67) |
| Minions.FollowTactic | minion.py:338-350 | an archer on stop with a free cell ahead looses an arrow there, which fails exactly when that cell is outside the dictionary, leaves every unit alone and lists the arrow twice in the battle's effects; every other case follows the tactic |
| Minions.Loose | effect.py:68 | an arrow loosed onto an empty cell strikes nothing |
| Minions.Act | minion.py:184-189 | a minion with a positive action counter only counts it down; otherwise it engages |
| Minions.Engage | minion.py:185-187 | after reloading, a minion with an enemy in reach strikes it and moves nobody; otherwise it follows its tactic (see also minion.py:165-174) |
| Minions.Reload | minion.py:185 | reset_action sets the action counter back to its default and changes nothing else |
| Minions.ReloadKeepsReach | minion.py:94-110 | reloading does not change which enemy is in reach |
| Minions.MinionUpdate | minion.py:176-189 | a dead minion's update does nothing, and an update never adds or removes a unit |
| Minions.VolleyKeepsArcher | minion.py:347-348 | an archer that looses an arrow does not itself change |
| Minions.ArrowListedTwice | minion.py:348 | a loosed arrow appears twice in the battle's effect list, once from its constructor and once from the explicit append (see also effect.py:26-27) |
| Minions.CountingDown | minion.py:184-189 | a live minion without statuses and with a positive counter only counts it down |
| Minions.StrikeBeforeTactic | minion.py:184-187 | a ready minion with an enemy in reach attacks instead of following its tactic, so it does not move |
| Formation.Mirror | formation.py:33-43 | side 0 keeps a cell; the other side reflects it through the grid's centre |
| Formation.MirrorInvolution | formation.py:43 | mirroring twice gives the cell back, and a cell is inside exactly when its mirror is |
| Formation.RowRun | formation.py:131-140 | one column of the rows formation has exactly `rows` cells |
| Formation.ColumnOffsets | formation.py:130-140 | the vertical offsets of one column, one per row |
| Formation.RowRunZigzag | formation.py:139 | the k-th offset of a column is the k-th step of the zigzag 0, -1, 1, -2, 2, ... (or 0, 1, -1, ... for an even row count) |
| Formation.ColumnOffsetsDistinct | formation.py:139 | no two rows of a column share an offset |
| Formation.Up | formation.py:97-99 | an ascending range holds exactly the integers between its bounds |
| Formation.Down | formation.py:65-67 | a descending range holds exactly the integers between its bounds |
| Formation.Column | formation.py:135 | each cell of a column is, once mirrored back, the column's x at the general's row plus its offset |
| Formation.ColumnsOf | formation.py:129 | every cell of the rows formation lies in one of the listed columns |
| Formation.RowsCells | formation.py:126-140 | the rows formation only uses columns 5 to 14 on its own side |
| Formation.WedgeWalk | formation.py:67-75 | every cell of a wedge line lies in one of the listed columns |
| Formation.WedgeLine | formation.py:66-75 | a negative increment gives no cells; otherwise every cell lies in one of the listed columns |
| Formation.FlyingCells | formation.py:62-75 | the flying wedge only uses columns 4 to 14 on its own side |
| Formation.InvertedCells | formation.py:94-107 | the inverted wedge only uses columns 4 to 14 on its own side |
| Formation.Slots | formation.py:62-140 | every formation stays within its columns: 5 to 14 for rows, 4 to 14 for the wedges |
| Formation.PlaceOne | formation.py:71-74 | a minion is cloned exactly when the cell is inside, free and passable for it; the clone gets the next id and is appended to the minion list, and nothing else changes (see also minion.py:84-86) |
| Formation.PlaceAlong | formation.py:64-74 | placing stops after n minions or at the end of the cells; the placed minions get consecutive ids, are appended in order, and earlier units are untouched |
| Formation.FirstCellFilled | formation.py:71-74 | with a free first cell the first minion lands there |
| Formation.BlockedCellFree | formation.py:72 | a cell that refuses the clone uses up none of the count |
| Formation.Place | formation.py:25-140 | place_minions places at most minions_alive minions along the formation's cells, nothing without a template or a positive count, and leaves earlier units untouched |
| Formation.PlacedInColumns | formation.py:62-140 | every minion placed stands, once mirrored back, in the formation's columns |
| Roster.SetData | general.py:133 | writing a general's own fields changes that general's data and nothing else (see also general.py:169) |
| Roster.Enlist | general.py:134-136 | every minion of the side gets the tactic; every other unit keeps its own |
| Roster.CommandTactic | general.py:127-136 | command_tactic fails exactly when the index is out of range (Python indexing, negatives from the end); otherwise it selects the tactic and hands it to exactly the side's minions, changing nothing else |
| Roster.CommandIdempotent | general.py:127-136 | commanding the same tactic twice is the same as commanding it once |
| Roster.LastCommandWins | general.py:127-136 | of two commands in a row only the second one matters |
| Roster.CommandAgain | general.py:127-136 | unit by unit, two commands in a row leave each unit as the second command alone does |
| Roster.CommandedGeneral | general.py:127-136 | of the general's own record a command changes only its selected tactic and, when the general is itself listed, its tactic |
| Roster.LiveCount | general.py:169 | the living minions of a side never outnumber the list |
| Roster.Recount | general.py:167-169 | recount_minions_alive sets the count to the number of the side's living minions |
| Roster.SameLives | general.py:169 | the count depends only on which listed units are living allies |
| Roster.LiveCountAppend | general.py:169 | counting over two joined lists adds the two counts |
| Roster.DeathLowersCount | general.py:169 | the death of a living ally listed once lowers the count by exactly one (see also minion.py:88-92) |
| Roster.Unlisted | general.py:169 | the death of a unit outside the list does not change the count |
| Roster.PlaceFlag | general.py:147-161 | placing the flag where it already stands does nothing; otherwise the flag moves to an inside cell or is removed |
| Roster.PlaceFlagIdempotent | general.py:147-161 | placing the same flag twice is the same as placing it once |
| Roster.StopClearsFlag | general.py:158-161 | placing the flag off the grid removes it (see also general.py:232) |
| Generals.Spent | general.py:258-260 | after a successful use every skill's cooldown drops by 5 (clamped) and the used skill restarts at 0 |
| Generals.UseSkill | general.py:244-263 | an out-of-range index raises; a skill that is not ready is not used; a truthy use happens only for a ready skill whose use was truthy, and then shifts all cooldowns, resets the skill and records its index; a falsy use changes nothing beyond what the skill did |
| Generals.SpentRestarts | general.py:256-260 | the used skill is ready again exactly after max_cd ticks, and every other skill's cooldown drops by 5 but not below 0 (see also skill.py:53-60) |
| Generals.DummyNeverUsed | general.py:255-257 | picking an empty slot never changes the world (see also skill.py:81-82) |
| Generals.Tock | general.py:217-219 | each general update ticks every skill once and raises the swap cooldown by one up to its maximum, changing nothing else |
| Generals.Toward | general.py:229-230 | the step towards the flag on one axis is 0 when level, and the sign of the distance otherwise |
| Generals.StepCloser | general.py:226-231 | one step towards the flag brings the general exactly one cell closer in the king-move distance |
| Generals.March | general.py:225-232 | marching moves the general by at most its step towards the flag; the flag is removed on arrival or when the move is blocked and kept otherwise |
| Generals.Charge | general.py:234-236 | with no enemy in reach the general waits with its counter at -1; otherwise it strikes and moves nobody |
| Generals.Command | general.py:222-236 | a general's action never adds or removes a unit |
| Generals.Drill | general.py:222-238 | only a general acts in this phase, and it never adds or removes a unit |
| Generals.GeneralUpdate | general.py:208-238 | a dead general's update does nothing, and an update never adds or removes a unit |
| Generals.IdleGeneralCountsDown | general.py:237-238 | a general waiting two or more turns ticks its skills and counts its action counter down twice, once in the minion update it inherits and once in its own (see also general.py:214, minion.py:188-189) |
| Generals.GeneralActsAtOne | general.py:214 | a general whose counter reaches 0 in the inherited minion update acts in the same turn (see also general.py:222-223) |
| Generals.NoFlagNoEnemyWaits | general.py:233-236 | with no flag inside the grid and no enemy in reach the general only sets its counter to -1 |
| Generals.MarchApproaches | general.py:225-232 | marching either gets one cell closer with the flag kept, or removes the flag on arrival or when blocked |
| Generals.Enrol | general.py:204 | putting a general into a reserve slot replaces that slot only |
| Generals.Swap | general.py:184-206 | swap does nothing before the swap cooldown is full or when the reserve slot is missing; otherwise the reserve takes the general's place, cell and flag, and the general goes to the reserve slot |
| Generals.Install | general.py:195-199 | the incoming general stands on the outgoing general's cell with a zero swap cooldown and swap sickness as its action counter |
| Generals.PassFlag | general.py:200-203 | the outgoing general's flag passes to the incoming general and the outgoing one keeps none |
| Generals.Relieve | general.py:193-205 | the swap is a handover from the general to the reserve |
| Generals.SwapPermutesRoster | general.py:193-205 | a swap exchanges the general and the chosen reserve, so the side's general and reserves together are the same generals as before |
| Generals.HandoverEnlisted | general.py:195-204 | after a swap every listed general and reserve is still a general |
| Generals.NoSwapBackAtOnce | general.py:194-196 | the incoming general cannot swap back on the same turn, since its swap cooldown starts at 0 |
| Generals.StandardSkills | general.py:138-145 | a plain general has five skills |
| Generals.ConwayPoisonAsWritten | general.py:278 | the poison Conway's skill carries as written: owner 5, power 19, tbt 4 and the default 9999 ticks |
| Generals.ConwayPoison | general.py:278 | the poison intended: power 5, every 20 updates, 4 strikes, lasting 80 updates (see also status.py:247-248) |
| Generals.PoisonHitCounts | general.py:278 | the intended poison strikes 4 times, the poison as written 9999 times (see also status.py:246-263) |
| Generals.FreezeCurseAsWritten | general.py:337 | the curse as written lasts the default 9999 updates, the 15 landing in the owner slot |
| Generals.FreezeCurse | general.py:337 | the curse intended lasts 15 updates (see also status.py:130-132) |
| Generals.ConwaySkills | general.py:273-279 | Conway has four skills |
| Generals.EmperorSkills | general.py:334-340 | the Emperor has four skills, the transform slot holding the area-less null function |
| Generals.NightspiritSkills | general.py:357-363 | the Nightspirit has four skills |
| Generals.InitialSkills | general.py:138-145 | every starting skill begins at cooldown 0 with a positive maximum, tied to its general |
| Generals.StartingStatuses | general.py:273-279 | Conway's fourth starting skill carries the poison as written (power 19, 4 turns between hits, 9999 hits) and the Emperor's second the curse as written (9999 updates) (see also general.py:334-340) |
| Generals.StartBattle | general.py:171-175 | start_battle fails exactly when the general has no tactics; otherwise it installs the variant's skills (none of them ready), commands the first tactic to the side's minions, sets the swap cooldown to 200 and, for the Emperor, the living-minion count to 0 (see also general.py:342-344, general.py:127-136) |
| Generals.StartedEquipped | general.py:171-175 | after start_battle the general is equipped with usable skills |
| Variants.CountAllies | general.py:283-288 | the allies counted around a cell never outnumber the offsets looked at |
| Variants.CountIsCard | general.py:283-288 | with distinct offsets the count is the number of offsets whose cell holds an ally |
| Variants.AllyNeighbours | general.py:281-288 | a cell has at most eight allied neighbours, counted once per neighbouring cell |
| Variants.Census | general.py:289-292 | births are exactly the empty passable cells with three allied neighbours, deaths exactly the cells of an ally other than Conway with fewer than two or more than three; no cell is both, and Conway itself is never doomed (see also general.py:299-302) |
| Variants.Reap | general.py:308-310 | killing the doomed cells moves nobody, and with nobody on them changes nothing |
| Variants.LiveLife | general.py:296-311 | one generation only appends newborn minions (at most one per birth cell), keeps the existing minion list as its prefix, and leaves Conway's count equal to its living minions |
| Variants.ConwayUpdate | general.py:294-314 | a dead Conway does nothing; with any tactic but null it updates as a plain general |
| Variants.ConwayCountsDownThrice | general.py:297 | a waiting Conway on the null tactic counts its action counter down three times per turn (see also general.py:313-314, general.py:237-238, minion.py:188-189) |
| Variants.ConwayWaits | general.py:312-314 | a waiting Conway on the null tactic counts down once and then updates as a plain general |
| Variants.LonelyAllyDies | general.py:290-292 | an ally other than Conway with no allied neighbour is doomed |
| Variants.Transform | general.py:346-364 | the human Emperor becomes the Nightspirit, with full hit points and the Nightspirit's skills; a transformed Emperor is left as it is |
| Variants.TransformOnce | general.py:347-351 | transforming twice is the same as transforming once |
| Variants.EmperorUseSkill | general.py:366-369 | the Emperor uses a skill as any general does, and transforms when the transform slot was used truthily in human form |
| Variants.HumanFormNeverEnds | general.py:327-329 | the transform slot holds the null function, which is always falsy, so the human Emperor never transforms and its death changes nothing (see also general.py:340, skill.py:194-195) |
| Variants.EmperorImmortal | general.py:327-344 | after start_battle the human Emperor cannot die and cannot transform |
| Battle.FlagPattern | battle.py:27 | a line matches the flag pattern only when it starts with "flag (" (see also battle.py:147) |
| Battle.SkillPattern | battle.py:28 | a line matches the skill pattern only when it starts with "skill", one digit (the skill index), a space and "(" (see also battle.py:151) |
| Battle.Parse | battle.py:139-153 | "stop", "tactic" and "swap" are recognised by prefix in that order, the digit after "tactic" or "swap" read with int() (which raises on a non-digit); flag and skill lines are matched by pattern; any other line is ignored, and only the tactic and swap forms can raise |
| Battle.PairOfCoords | battle.py:27-28 | the "x,y)" written for a pair of integers reads back as that pair |
| Battle.ParseFlag | battle.py:146-149 | a line matching the flag pattern is a flag order at its coordinates |
| Battle.ParseSkill | battle.py:150-153 | a line matching the skill pattern is a skill order with its index and coordinates |
| Battle.FlagRoundTrip | battle.py:146-149 | the flag line the mouse produces parses back to the same flag order (see also battle.py:60-61) |
| Battle.SkillRoundTrip | battle.py:150-153 | the skill line the keyboard produces parses back to the same skill order for a one-digit index (see also battle.py:87) |
| Battle.TacticRoundTrip | battle.py:141-142 | the tactic line parses back to the same tactic for a one-digit index (see also battle.py:99, battle.py:108) |
| Battle.SwapRoundTrip | battle.py:143-144 | the swap line parses back to the same reserve for a one-digit index (see also battle.py:75) |
| Battle.StopRoundTrip | battle.py:139-140 | the stop line parses back to a stop order (see also battle.py:68-69) |
| Battle.ParseIgnored | battle.py:146-153 | a line matching none of the forms is ignored |
| Battle.AiFlagIgnored | ai/ai_controller_optimized.py:382 | the AI's "flag x y" line matches no pattern and is ignored (see also battle.py:27, battle.py:146-149) |
| Battle.AiSkillIgnored | ai/ai_controller_optimized.py:348 | the AI's "skill<i> x y" line matches no pattern and is ignored (see also battle.py:28, battle.py:150-153) |
| Battle.CastBy | battle.py:153 | a skill order goes through the Emperor's own use_skill for the Emperor and through the plain one otherwise (see also general.py:366-369) |
| Battle.Dispatch | battle.py:139-159 | an ignored line changes nothing; a side without a general raises; stop removes the flag, a flag order places it, a tactic order commands the tactic, a swap order swaps and a skill order uses the skill |
| Battle.Obey | battle.py:134-138 | a side with no line for the turn does nothing; otherwise its line is parsed and dispatched, a parse error ending the turn |
| Battle.ProcessMessages | battle.py:133-159 | side 0's line is carried out before side 1's, and a turn without lines changes nothing |
| Battle.SameAtSameOrders | battle.py:135-136 | only the lines filed under the turn being processed matter |
| Battle.PostElsewhere | battle.py:135 | filing a line under another turn leaves this turn's lines as they were |
| Battle.OtherTurnsIgnored | battle.py:133-136 | a line filed under another turn has no effect on this turn |
| Battle.CheckWinner | battle.py:112-123 | the winner is side 1's general when side 0's has fallen, side 0's when only side 1's has fallen, and nobody while both stand |
| Battle.BothDeadSideOneWins | battle.py:114-122 | when both generals have fallen, side 1 is declared the winner (the draw is not detected) |
| Battle.CleanAll | battle.py:125-131 | clean_all keeps exactly the live effects and minions of the two lists, in order, and changes nothing else |
| Battle.RemoveAfter | battle.py:128 | list.remove takes the first occurrence: past a prefix without it, the element is dropped from the suffix |
| Battle.FilterNext | battle.py:126-128 | keeping the live entries of a one-longer prefix adds at most the new entry |
| Battle.SweepStep | battle.py:126-131 | removing each dead entry from the working list, in the copy's order, leaves the kept prefix followed by the unvisited rest |
| Battle.Sweep | battle.py:126-131 | iterating over a copy and removing each dead entry keeps exactly the live entries in order |
| Battle.CleanAllAsWritten | battle.py:125-131 | the remove-while-iterating-a-copy loop gives the same lists as keeping the live entries |
| Battle.Toggle | battle.py:92-99 | the space bar fails with ValueError when the selected tactic is not listed, or when it is the first and the previous one is not listed; from the first tactic it answers the previous one, otherwise it records the selected tactic as previous and answers 0 |
| Battle.ToggleTwiceRestores | battle.py:92-99 | pressing the space bar twice comes back to the tactic selected before |
| Battle.SelectKey | battle.py:103-108 | choosing a tactic by key records the selected tactic as previous unless the first tactic is selected, and fails when the selected tactic is not listed |
| Battle.FirstDown | battle.py:73-75 | the first pressed key among the live ones, and none exactly when no live key is pressed (see also battle.py:79-80, battle.py:103-104) |
| Battle.OpenKeymap | battle.py:42-44 | the live keys are at most the nine swap, ten skill and seven tactic keys there are |
| Battle.CheckInput | battle.py:58-110 | a right click gives a flag line and the s key a stop line; the only change to the general is recording a previous tactic; only the tactic keys can raise |
| Battle.InputUnderstood | battle.py:58-110 | every line the keyboard and mouse produce is understood by the parser, a right click as a flag at the cursor (see also battle.py:133-159) |
| Window.Message | window.py:119-128 | the message log never grows beyond its six lines |
| Window.MessageKeepsLast | window.py:122-128 | adding lines keeps exactly the last six lines of the log followed by the new ones |
| Window.Decode | window.py:149-153 | a received string without "#" delivers nothing; otherwise it delivers the text after the first "#" under the turn written before it, and int() of a non-number raises |
| Window.NoHashInShow | window.py:173 | a turn number written out contains no "#" |
| Window.WireRoundTrip | window.py:146 | "turn#line" decodes back to the turn and the line (see also window.py:173, window.py:150-153) |
| Window.DrawIsDropped | window.py:148 | the "D" sent for a silent turn delivers nothing (see also window.py:152) |
| Window.Receive | window.py:150-153 | a decoded line is filed under its turn for the other side; nothing else changes, and only a decoding error fails |
| Window.ExchangeDelivers | window.py:171-175 | what one side sends for a turn is filed under that turn on the receiving side, and a silent turn changes nothing there (see also window.py:150-153) |
| Window.LastSaid | window.py:166-169 | the last input of the turn, and none exactly when nothing was typed |
| Window.TypeElsewhere | window.py:169 | typing during a turn only files lines under that turn |
| Window.PostTwice | window.py:169 | a later line filed under the same turn replaces the earlier one |
| Window.LastInputWins | window.py:166-169 | of all inputs of a turn, the last one is the line kept |
| Window.TypeSplit | window.py:166-169 | one more poll either files its line or changes nothing |
| Window.UpdateOne | window.py:278-284 | each pass updates its kind of object: generals (Conway by its own update), effects, minions (see also general.py:294-314) |
| Window.Walk | window.py:279-284 | past the end of its list a pass does nothing |
| Window.UpdateAll | window.py:278-284 | update_all runs the generals first, then the effects, then the minions |
| Window.DeadAreSkipped | window.py:281-284 | dead effects and minions change nothing when updated |
| Window.Winner | window.py:177 | the winner check of the turn is the battle's (see also battle.py:112-123) |
| Window.Advance | window.py:176-178 | every turn updates everything, and every hundredth turn also cleans the dead out of the lists |
| Window.Finish | window.py:176-181 | a turn processes the lines filed TURN_LAG turns earlier and moves to the next turn |
| Window.Heard | window.py:140-153 | nothing is heard on turn 0; later, the received string is filed for the other side |
| Window.Books | window.py:140-169 | a turn's mail is what was heard plus what was typed |
| Window.Step | window.py:138-182 | a turn files the lines and moves the turn on by one |
| Window.TypingActsNextTurn | window.py:169 | what is typed during a turn does not affect the lines processed on that turn (see also window.py:176) |
| Window.AiActsNextTurn | window.py:144-153 | the AI's answer for a turn is filed under that turn, so it changes nothing processed on it (see also window.py:176) |
| Window.Run | window.py:138-191 | the loop moves one turn per input and stops early only when a general has fallen |
| Scenario.Pool | scenario.py:38 | a side's pool read at a Python list index: it exists exactly for -n <= side < n (see also scenario.py:95) |
| Scenario.ApplyRequisition | scenario.py:36-47 | a deployed general is left alone; otherwise, when its points and the pool cover the cost it is deployed and the pool pays the rest (all but one point when deployment fails), and else the whole pool goes to the general; points only move between the pool and the general, and the other pools are untouched |
| Scenario.CollectEarns | scenario.py:93-95 | collecting fails exactly when a held fortress names no pool, and otherwise adds to each pool exactly what its fortresses produce |
| Scenario.Cap | scenario.py:97-98 | a pool above 999 is cut down to 999 and any other pool is kept |
| Scenario.Holdings | scenario.py:93-95 | one holding per listed fortress: its side and its production |
| Scenario.IncrementRequisition | scenario.py:92-98 | after an increment both sides' pools are within the cap |
| Scenario.IncrementCredits | scenario.py:92-98 | each side's pool ends at what it had plus what its fortresses earned, capped; any further pool is credited uncapped |
| Scenario.IncrementFails | scenario.py:94-98 | increment_requisition raises exactly when a held fortress names no pool or there are fewer than two pools |
| Scenario.NeutralEarnsNothing | scenario.py:94 | fortresses nobody holds earn nothing |
| Evaluators.HealthRatio | ai/evaluators_optimized.py:204-205 | hp / max_hp when max_hp is positive (so ratio * max_hp = hp), and 1.0 otherwise |
| Evaluators.Manhattan | ai/evaluators_optimized.py:222 | the Manhattan distance between the two generals is never negative |
| Evaluators.HealthTerm | ai/evaluators_optimized.py:204-209 | 40 exactly when the health ratio is below 0.3, 20 exactly when it is in [0.3, 0.6), 0 exactly when it is at least 0.6 |
| Evaluators.OutnumberedTerm | ai/evaluators_optimized.py:212-218 | 30 exactly when enemy minions exceed 1.5 times ours, 15 exactly when they exceed ours but not 1.5 times, 0 exactly when they do not exceed ours |
| Evaluators.ProximityTerm | ai/evaluators_optimized.py:221-225 | 25 exactly when the enemy general is within Manhattan distance 7, else 0 |
| Evaluators.EnemyHealthTerm | ai/evaluators_optimized.py:227-231 | 15 exactly when the enemy general's health ratio is below 0.5, else 0 |
| Evaluators.Urgency | ai/evaluators_optimized.py:201-233 | the urgency is in [0, 100] and is the sum of the four terms capped at 100 |
| Evaluators.UrgencyMonotone | ai/evaluators_optimized.py:204-209 | losing health never lowers the urgency |
| Evaluators.ShouldCommand | ai/evaluators_optimized.py:247-265 | a command is advised exactly when the tactic index is not -1; never with fewer than 3 minions; tactic 5 exactly when urgency is above 50, tactic 1 exactly when urgency is at most 50, we outnumber the enemy by more than 1.2 and the enemy is nearer than 15; tactic 6 exactly when neither of those holds, there are at least 3 minions and the general is below 60% health |
| Evaluators.Damaged | ai/evaluators_optimized.py:105-106 | exactly the allied minions missing health |
| Evaluators.SortByDamage | ai/evaluators_optimized.py:109 | the sort keeps every candidate and adds none |
| Evaluators.SortHead | ai/evaluators_optimized.py:109 | the sort puts first a most damaged candidate, the earliest of those in the original order (Python's sort is stable) |
| Evaluators.PickFirst | ai/evaluators_optimized.py:110-113 | when the first candidate is the most damaged, the scan ends on it if it beats the running best and keeps the running best otherwise |
| Evaluators.HealTargetIsWorst | ai/evaluators_optimized.py:95-115 | no target (and 0) exactly when neither the general nor any allied minion is hurt; the reported damage is at least every candidate's; a hurt general wins ties; otherwise the target is the first most damaged minion; the cut to five never changes the answer |
| Evaluators.SkillPriority | ai/evaluators_optimized.py:280-310 | a skill on cooldown scores (0, no); any use scores at least 16; a heal skill is used exactly below 80% health with a score in (46, 70]; an unclassified skill scores (16, yes); a damage skill is used exactly when the AoE search found a target scoring above 1 (see also ai/evaluators_optimized.py:332) |
| Evaluators.Validate | ai/evaluators_optimized.py:376-401 | rejections in order: not ready, target outside, no or empty area; a damage skill is valid exactly when its area holds a non-ally, scoring their number; any other skill is accepted |
| Evaluators.Enemies | ai/evaluators_optimized.py:390 | the number of area tiles holding a non-ally |
| Ai.OnlyTacticsHeard | ai/ai_controller_optimized.py:348 | as written, the battle's parser ignores every flag and skill line the AI sends and turns only its tactic lines into orders (see also ai/ai_controller_optimized.py:382) |
| Ai.EveryCommandHeard | ai/ai_controller_optimized.py:348 | written in the battle's own syntax, every AI command parses to the order it stands for, and the empty action to none (see also ai/ai_controller_optimized.py:382) |
| Ai.PhaseOf | ai/ai_controller_optimized.py:143-151 | early game exactly before turn 50; end game exactly from turn 50 with either general below 30% health; combat only within 15 tiles and positioning only beyond |
| Ai.StrategyOf | ai/ai_controller_optimized.py:169-215 | every priority list orders tactical, skill and move once each; early game with fewer than five minions is aggressive deployment, tactical first; exactly the aggressive, finish-him, survive and balanced plans try a skill first |
| Ai.Remember | ai/ai_controller_optimized.py:1081-1084 | the flag history stays within fifteen entries and ends with the new flag, which is then among the last eight |
| Ai.FlagCount | ai/ai_controller_optimized.py:1090 | the count of flag orders never exceeds the actions looked at |
| Ai.FlagGate | ai/ai_controller_optimized.py:1066-1092 | a flag at a place among the last five, or within two tiles of one of the last eight, is spam and leaves the memory alone; any other flag is remembered, and is spam exactly when two flags are among the last fifteen actions |
| Ai.SpamAsWritten | ai/ai_controller_optimized.py:1057-1105 | as written, no skill or tactic order is ever spam, since the first word carries the index |
| Ai.RepeatedTacticPasses | ai/ai_controller_optimized.py:1095-1103 | as written, a tactic order already given three times in the last ten actions is not spam |
| Ai.FlagSpamAgrees | ai/ai_controller_optimized.py:1057-1105 | on flag orders the spam rules as written and as intended give the same verdict and memory |
| Ai.IsSpam | ai/ai_controller_optimized.py:1057-1103 | the empty action is spam; the same tactic is spam at three repeats in the last ten actions, the same skill order at four; a flag is spam when the flag gate says so or at six repeats; only flags change the memory |
| Ai.SameFlagStep | ai/ai_controller_optimized.py:1124-1152 | as written, the counter of identical consecutive flags never gets past 1, so the history-clearing branch is never reached |
| Ai.Record | ai/ai_controller_optimized.py:1119-1170 | the action becomes the newest entry; the history grows by one up to fifteen and then stays at fifteen; the skill-use table is untouched; only a tactic order changes the active tactic, and it makes it that tactic |
| Ai.RecordSane | ai/ai_controller_optimized.py:1119-1170 | recording keeps the history within fifteen and the tactic start and skill uses no later than the clock |
| Ai.SameFlagStuck | ai/ai_controller_optimized.py:1131-1152 | recording never raises the same-flag counter above 1 and never clears the flag history |
| Ai.RecordAllKeeps | ai/ai_controller_optimized.py:1119-1170 | over any run of recordings the bounds hold, a full history stays full, skill uses are untouched, and without tactic orders the active tactic and its start are kept |
| Ai.CooldownOver | ai/ai_controller_optimized.py:1107-1113 | a skill never used always passes the cooldown |
| Ai.MarkUsed | ai/ai_controller_optimized.py:1115-1117 | marking a skill used blocks that skill at once and leaves every other skill's cooldown as it was |
| Ai.CooldownNeverEnds | ai/ai_controller_optimized.py:1107-1117 | as written, a skill used once the history is full is never allowed again, whatever is recorded afterwards |
| Ai.CooldownEnds | ai/ai_controller_optimized.py:1107-1117 | counting every recorded action, a skill is allowed again two actions after it was used |
| Ai.PersistenceNeverEnds | ai/ai_controller_optimized.py:240-247 | as written, once a tactic is active the persistence window never closes |
| Ai.PersistenceEnds | ai/ai_controller_optimized.py:240-247 | counting every recorded action, the window closes after fifteen actions that order no tactic |
| Ai.TryTactical | ai/ai_controller_optimized.py:238-309 | nothing while the persistence window is open; anything proposed is a tactic order that is not spam, and it re-orders the active tactic only after 45 turns |
| Ai.TacticalStageFrozen | ai/ai_controller_optimized.py:240-247 | as written, the main tactical stage proposes nothing ever again once any tactic has been ordered |
| Ai.SmartTactic | ai/ai_controller_optimized.py:830-862 | only go_sides, attack or forward, and only when the general has that tactic; go_sides only early and not among the last ten actions, attack only in combat and not among the last fifteen, forward only while positioning and not among the last twenty |
| Ai.FirstMatchIsFirst | ai/ai_controller_optimized.py:1011-1021 | the synergy is the multiplier of the first keyword, in table order, that the description contains, and 1.0 when none does |
| Ai.Synergy | ai/ai_controller_optimized.py:970-1021 | 1.0 with no active tactic, and always between 1.0 and 1.5 |
| Ai.Clamp | ai/ai_controller_optimized.py:934-935 | the value clamped into [1, hi] and unchanged when already there |
| Ai.Survivors | ai/ai_controller_optimized.py:928-939 | every surviving candidate is one of the clamped steps, and the action history is untouched |
| Ai.Closest | ai/ai_controller_optimized.py:942-951 | the move chosen is one of the candidates |
| Ai.FirstMoved | ai/ai_controller_optimized.py:956-965 | the first clamped step that moves, or none exactly when no step moves |
| Ai.Emergency | ai/ai_controller_optimized.py:920-968 | the emergency move is always a flag, leaves the action history alone, and on a battleground at least three tiles each way lies in x in [1, w-2] and y in [1, h-2] |
| Ai.ClampClose | ai/ai_controller_optimized.py:934-935 | clamping never moves two coordinates further apart |
| Ai.StepsNear | ai/ai_controller_optimized.py:928-935 | any two clamped unit steps land within two tiles of each other |
| Ai.NoneSurvive | ai/ai_controller_optimized.py:1077-1082 | once the last remembered flag is near every step, no step survives |
| Ai.AtMostOneSurvives | ai/ai_controller_optimized.py:928-939 | since each accepted step is remembered before the next is tried, at most one candidate survives the first loop (see also ai/ai_controller_optimized.py:1081-1084) |
| Ai.EmergencyTakesSurvivor | ai/ai_controller_optimized.py:941-954 | the emergency move is the single survivor whenever there is one |
| Ai.Guaranteed | ai/ai_controller_optimized.py:789-807 | the guaranteed chain always yields a non-empty action and leaves the action history alone |
| Ai.DecideAction | ai/ai_controller_optimized.py:69-112 | decide_action always returns an action, so the final `return None` is never reached; it records that action as the newest; the strategy's own action wins whenever there is one; the history stays within fifteen |
| Animator.Duration | sprite_animator.py:14-19 | every state shows a frame for at least two ticks |
| Animator.Sequence | sprite_animator.py:41-47 | every sequence is four keys long, starts at the base frame and runs frame 0, frame 1, frame 0 of the state's own strip |
| Animator.New | sprite_animator.py:29-49 | a new animator is idle (previous state idle too) at the first frame with the timer at zero |
| Animator.TransitionTo | sprite_animator.py:73-87 | the same state changes nothing; a flinch always interrupts and remembers the state it interrupted; a one-shot animation ignores every other request; a looping one switches and restarts; only a flinch rewrites the previous state |
| Animator.TransitionIdempotent | sprite_animator.py:73-87 | asking for the same state twice is the same as asking once |
| Animator.OneShotHoldsUnlessFlinch | sprite_animator.py:78-83 | a one-shot animation changes only for a flinch, and never from a flinch |
| Animator.AdvanceFrame | sprite_animator.py:60-71 | within the sequence the index steps by one; a looping animation wraps to 0 after four frames; with the hand-back corrected, a finished one-shot animation returns to the previous state at the first frame |
| Animator.Update | sprite_animator.py:51-58 | the timer counts up, and on reaching the state's duration it resets to zero and advances exactly one frame |
| Animator.CurrentSprite | sprite_animator.py:89-105 | nothing for an empty sprite set; an IndexError when the index has run past the sequence; otherwise the image the frame key names in its strip |
| Animator.SpriteAvailable | sprite_animator.py:89-105 | with a complete sprite set and the index within the sequence, a sprite is always found |
| Animator.UpdateKeepsGood | sprite_animator.py:51-71 | with the hand-back corrected, an update keeps the index within the sequence and the timer below the duration |
| Animator.LoopingUpdateKeepsGood | sprite_animator.py:60-68 | for idle and walking, even as written, an update keeps the bounds and the state |
| Animator.AlwaysGood | sprite_animator.py:51-71 | with the hand-back corrected, the bounds hold after any number of updates |
| Animator.Ticks | sprite_animator.py:51-58 | fewer updates than the duration only move the timer |
| Animator.OneFrame | sprite_animator.py:51-58 | exactly one duration's worth of updates advances exactly one frame |
| Animator.UpdateNAdd | sprite_animator.py:51-58 | n updates followed by m updates are n + m updates |
| Animator.LoopPeriod | sprite_animator.py:42-47 | a looping animation returns to where it was after four frames' worth of ticks (see also sprite_animator.py:60-68) |
| Animator.OneShotOverruns | sprite_animator.py:69-71 | as written, a finished attack or flinch stays in its state with the index past the sequence, and the next sprite lookup raises IndexError (see also sprite_animator.py:81-83) |
| Animator.OneShotReturns | sprite_animator.py:69-71 | with the hand-back corrected, a finished one-shot animation is back in the previous state at the first frame, within bounds |
| Animator.AttackFromFreshOverruns | sprite_animator.py:73-87 | as written, a new animator told to attack raises IndexError on the sprite lookup twelve ticks later (see also sprite_animator.py:94-95) |

## Left out

- Battle.Dispatch: a successful skill order does not write the general's skill quote to the message log (battle.py:153-159), because the model's generals carry no names or quotes and the turn loop's session keeps no log; the state effects of every order are modelled.
- Battle.CheckWinner: the death quote and the "<name> is dead!" line written for a fallen general (battle.py:116-120) are not modelled, for the same reason; the winner returned is.
- Rendering and UI: every `render_*` method, hover colouring, tile and unit colours, sprite names, `Minion.update_color`, `Fortress.refresh_chars` (which only redraws guest sprites) and the mouse-hover area preview. They are presentation only.
- Asset, audio and map-file I/O: `load_tiles` takes the file's lines as a parameter, and the textwrap of `Window.message` is not modelled, so messages arrive as already-wrapped lines.
- The network and its threads (`Network`, `recv`, `send`): the opponent's traffic for each turn is a parameter of `Window.Step`, as one received string.
- Keyboard and mouse polling: key states are a `Battle.Keys` value, and the polls of one turn are a sequence.
- Debug prints, the AI's `action_counts` and `tactic_effectiveness_history`, and the `personality` keys nobody reads. Nothing reads any of them back.
- Floating point: health ratios are exact reals, the Empower ratio is a fraction, and the outnumbering thresholds (1.5, 1.2, 0.6) are integer cross-multiplications. Rounding of IEEE doubles is not modelled.
- Randomness and centroid geometry: `find_best_aoe_target`, `find_strategic_move_target`, `_calculate_*_position`, `_find_optimal_*_position`, `_find_alternative_movement_target`, `_find_valuable_skill`, `_get_strategic_movement`, the `random.random()` gate of `_try_skill_action` and the spread comparison of `_analyze_battlefield_state`. Each is a parameter: the search result, a `Situation.spreadOut` flag, or a stage of `Ai.DecideAction` given as a function from the AI's memory to what it returns and leaves behind.
- `_execute_strategy` and `_try_skill_action` / `_try_movement_action`: the strategy stage of `Ai.DecideAction` is a parameter. `Ai.TryTactical` models the tactical stage on its own, and `Ai.StrategyOf` models the priority tables.
- `get_combat_effectiveness_score` and `get_battlefield_summary`: float summaries no decision reads back.
- The `Arc` area (trigonometry), `Fortress.get_connections` (a flood fill run once at construction, which nothing in the modelled core reads), `Scenario.get_next_tile`, `start_battle_thread`, and the scenario's `check_input`, `process_messages` and `update_all`.
- `Scenario.ApplyRequisition`: whether `deploy_general` succeeds depends on a free deployment cell, and is a boolean parameter.
- Skill functions that none of the generals in general.py uses: `add_path`, `apply_statuses`, `copy_spell`, `decapitate`, `explosion`, `nuke_statuses`, `recall_entity` and `teleport`. `Skill.change_max_cd` and `Skill.clone` have no caller in the core.
- Statuses that none of the generals in general.py applies: `Aura`, `Bleeding`, `Jumping`, `Lifted`, `Linked`, `PoisonHunger`, `Phasing`, `Recalling`, `Taunted` and `Vanishing`. The blinking marker that `Stunned` and `place_flag` create is also left out, because it is a visual effect only.
- Effects that none of the generals' skills creates: `Blinking`, `Bouncing`, `Lava`, `Pathing`, `Orb`, `Slash` and `Thunder`. The visual clone of a minion's attack effect is also left out.
- `General.recommand_tactic`, `start_scenario`, `change_battleground` and the `ai_action` delegations. They are one-line forwarders or belong to the strategic layer.
- Reading a cell missing from the tile dictionary, which raises `KeyError` in the original, reads here as an impassable empty tile, and writing to one is skipped. `Grid.DefaultArenaClosed` shows that no step from a passable cell of a default arena reaches such a cell.
- `Window.UpdateAll`: a pass whose own list grows while it is walked (Python would then visit the newcomers too) is reported as `outside the model`. So are generals missing from the unit table, an unarmed Conway and a reserve slot that holds no general.
- `Animator`: the unused `ping_pong_forward` flag is not modelled. A `None` sprite set is the empty sheet, and the frame keys are a datatype, not strings split on `_`.
- Text.ParseInt: reads `int()` as an optional ASCII sign followed by ASCII digits only. Python's `int()` also strips surrounding whitespace, accepts single underscores between digits and Unicode decimal digits, and battle.py's `\d` matches Unicode digits too. The model raises ValueError, or ignores the line, where Python would parse such text. Every string the program itself writes is in the ASCII form.
- Text.DigitAt: reads a single ASCII digit only, for the same reason.
- Ai.SmartTactic: reads `"tactic3" in action` as equality with the tactic order. For the indices the AI emits (all below 10), the two agree.
- Evaluators.SkillPriority: pins the cooldown, heal, damage and unclassified branches. The buff and movement branches are bounded only by the common floor of 16, because their scores depend on the urgency and on the random movement target.
- Ai.TryTactical: states the persistence guard, the spam guard and the 45-turn rule. It does not state which tactic each plan prefers.
- Ai.Survivors: states where survivors come from and that the action history is untouched. How many survive is `Ai.AtMostOneSurvives`.

## Findings

| source | as written | input that shows it | evidently intended | confidence | as-written member | corrected member |
|---|---|---|---|---|---|---|
| general.py:278 | `Poison(None, 5, 19, 4)` fills the owner slot with 5, power with 19 and ticks-between with 4; the ticks count stays at its default 9999 | Conway's fourth skill cast on an enemy minion | a poison of power 5 striking every 20 updates, 4 times (owner None, power 5, tbt 19, ticks 4) | high, not executed | Generals.ConwayPoisonAsWritten | Generals.ConwayPoison |
| general.py:337 | `FreezeCooldowns(None, 15)` puts 15 in the owner slot, so the curse lasts the default 9999 updates | the Emperor's second skill on the enemy general | a 15-update curse | high, not executed | Generals.FreezeCurseAsWritten | Generals.FreezeCurse |
| area.py:260-263 | for a steep line, a point off the board falls through to the `elif`, which tests and takes the transposed tile `tiles[(x, y)]` | the steep line from (0, 0) to (1, 12) on a 20 by 10 board yields (10, 1), (11, 1) and (12, 1) | only the line's own on-board points | high, not executed | Areas.LineTransposedExample | Areas.LineCellsFiltered |
| ai/ai_controller_optimized.py:1100-1103 | the frequency rules compare the first word ("tactic5", "skill0") with "tactic" and "skill", so they never fire | three `tactic5` orders in the last ten actions; a fourth is not spam | the same tactic is spam at three repeats, the same skill order at four | high, not executed | Ai.RepeatedTacticPasses | Ai.IsSpam |
| ai/ai_controller_optimized.py:240-247 | the turn is `len(last_actions)`, which stops at 15, so a tactic's age never exceeds 14 and the persistence window never closes | any tactic ordered, then any number of further actions | the window closes after 15 turns | high, not executed | Ai.PersistenceNeverEnds | Ai.PersistenceEnds |
| ai/ai_controller_optimized.py:1107-1117 | the same capped turn counter makes a skill used with a full history wait forever | a skill used once 15 actions are on record | the skill is allowed again two turns later | high, not executed | Ai.CooldownNeverEnds | Ai.CooldownEnds |
| ai/ai_controller_optimized.py:382 | the AI writes `flag x y` and `skill<i> x y`, but the battle's patterns (battle.py:27-28) want `(x,y)`, so every AI flag and skill order is ignored | `flag 5 7` from the AI | the AI's orders in the battle's own syntax, e.g. `flag (5,7)` | high, not executed | Ai.OnlyTacticsHeard | Ai.EveryCommandHeard |
| sprite_animator.py:69-71 | a finished one-shot animation asks to return to the previous state, but `transition_to` refuses to leave a one-shot state (lines 81-83), so the index runs to 4 and `get_current_sprite` raises IndexError | a new animator told to attack, then 12 updates | the animation hands back to the previous state at frame 0 | high, not executed | Animator.AttackFromFreshOverruns | Animator.OneShotReturns |
