# Space-shooter game core in Dafny

This project models the game logic of a Java space shooter. It covers:

- **The enemy formation.** A grid of enemy ships in columns, and the roster of shooters (the lowest live ship of each column). It has a counter of ships left, a movement state machine that walks the formation right, down and left across the screen, and `cleanUp`, which drops an empty column and recomputes the formation's box. It also has an attack-pattern scheduler whose `shoot` runs one of five patterns: NONE, WAVE, SIDE_WAVE, FOCUS and RANDOM_BURST.
- **The boss.** Its behaviour depends only on its current hit points: a phase-1 patrol with a straight shot, then a five-way fan, then the fan plus a column of straight bullets. It also takes hits and is destroyed.
- **The ship upgrade economy**, in both versions.
  - The current version prices an upgrade at 100 coins per level, adds 0.3 attack and 0.5 move speed per level, and takes 25 ms off the shooting interval per level, down to 200 ms.
  - The older version prices at 50 + 25·(level − 1), uses integer stats (+1 per level) and takes 50 ms per level off the interval.
  - Each manager keeps per-ship levels (1 to 10) and a coin balance, and rebuilds the ship library from each ship's base stats.
- **The player side.**
  - The player's stats record, with its setters, adders and experience counter.
  - Stat augments, where the shooting interval never ends below 50 ms.
  - The older player ship: its moves, its shot (one, two or three bullets depending on the ship type and the item effects), and its switch between live and destroyed sprites.

The formation's grid, roster and ship records are values in `Fleet` (`fleet.dfy`). `Movement` holds the movement rules and `Patterns` the scheduler. The formation itself is the class `Formation.EnemyShipFormation` (`formation.dfy`). Its methods update its fields in place, as the Java class does, and they are proved against those value-level functions.

The two upgrade managers, the player stats record, the boss and the player ship are classes as well. The cost and refund arithmetic is kept as functions in `Economy`, where it is proved.

Time, randomness and the screen are inputs:

- The wall clock is a parameter `now`. A cooldown is the time of its last reset, and whether it has finished is a boolean input.
- `Math.random()` is a real `rand` in [0, 1). The sine offsets of the boss's figure-eight are integer inputs.
- The screen's size is an input to `update`.

## Model

| member | source | states |
|---|---|---|
| Common.RandomIndex | src/main/entity/Enemy/EnemyShipFormation.java:428 | `(int)(Math.random() * n)` is a valid index into a non-empty list |
| Fleet.Mark | src/main/entity/Enemy/EnemyShipFormation.java:750 | destroying a ship flags only that ship and keeps every record |
| Fleet.Destroyed | src/main/entity/Enemy/EnemyShipFormation.java:747-755 | the marking loop flags the ship only when some column lists it; every other ship keeps its liveness |
| Fleet.IndexOf | src/main/entity/Enemy/EnemyShipFormation.java:759 | List.indexOf: the first position holding x, or -1 exactly when x is absent |
| Fleet.LastLive | src/main/entity/Enemy/EnemyShipFormation.java:790-800 | getNextShooter's answer is a live ship of the column, or none |
| Fleet.LastLiveIsLast | src/main/entity/Enemy/EnemyShipFormation.java:790-800 | the ship found is live and no ship listed after it is live: it is the last live one in list order |
| Fleet.LastLiveNoneCount | src/main/entity/Enemy/EnemyShipFormation.java:790-800 | getNextShooter returns null exactly when the column has no live ship |
| Fleet.Shooters | src/main/entity/Enemy/EnemyShipFormation.java:183-185 | the roster the grid determines has at most one ship per column, all of them live |
| Fleet.FilterLive | src/main/entity/Enemy/EnemyShipFormation.java:308-322 | the column after removeAll(destroyed) holds exactly the live ships, in order |
| Fleet.FilterLiveAppend | src/main/entity/Enemy/EnemyShipFormation.java:308-322 | filtering distributes over concatenation |
| Fleet.NoShootersNoLive | src/main/entity/Enemy/EnemyShipFormation.java:380-382 | the roster is empty exactly when no column lists a live ship |
| Fleet.ColumnOf | src/main/entity/Enemy/EnemyShipFormation.java:762-767 | the column scan finds the first column listing the ship |
| Fleet.ShootersAppend | src/main/entity/Enemy/EnemyShipFormation.java:183-185 | one more column adds its last live ship, if any, at the end of the roster |
| Fleet.ShootersSplit | src/main/entity/Enemy/EnemyShipFormation.java:757-778 | the roster splits at any column into the slots before it, its slot and the slots after it |
| Fleet.ShootersCongruent | src/main/entity/Enemy/EnemyShipFormation.java:757-778 | grids whose columns have the same last live ships have the same roster |
| Fleet.MarkKeepsLastLive | src/main/entity/Enemy/EnemyShipFormation.java:757-778 | destroying a ship that is not a column's shooter leaves that column's shooter alone |
| Fleet.ShooterColumn | src/main/entity/Enemy/EnemyShipFormation.java:758-767 | a roster member is listed by a column, whose last live ship it is |
| Fleet.ShooterIffLastLive | src/main/entity/Enemy/EnemyShipFormation.java:758 | `shooters.contains(s)` holds exactly when s is the last live ship of the column listing it |
| Fleet.MarkKeepsOtherColumns | src/main/entity/Enemy/EnemyShipFormation.java:757-778 | destroying s changes no column's shooter except that of its own column |
| Fleet.DestroyNonShooter | src/main/entity/Enemy/EnemyShipFormation.java:758 | destroying a ship outside the roster leaves the roster unchanged |
| Fleet.ShooterNotEarlier | src/main/entity/Enemy/EnemyShipFormation.java:759 | the roster slots before a shooter's column do not hold it, so indexOf finds its own slot |
| Fleet.SlotUpdate | src/main/entity/Enemy/EnemyShipFormation.java:771-777 | `set` or `remove` at the indexOf slot replaces or drops exactly that slot |
| Fleet.ShooterSlot | src/main/entity/Enemy/EnemyShipFormation.java:759 | before the destroy, the shooter sits in its column's slot |
| Fleet.MarkedRoster | src/main/entity/Enemy/EnemyShipFormation.java:769-777 | after the flag, only the destroyed shooter's slot can differ |
| Fleet.DestroyShooter | src/main/entity/Enemy/EnemyShipFormation.java:769-777 | the shooter's slot gets the column's new last live ship, or is removed when there is none |
| Fleet.DestroyUpdatesRoster | src/main/entity/Enemy/EnemyShipFormation.java:746-778 | destroy's slot repair yields exactly the roster of the new grid, every other slot unchanged |
| Fleet.SweepColumns | src/main/entity/Enemy/EnemyShipFormation.java:308-323 | every column after the sweep holds only live ships |
| Fleet.SweepShips | src/main/entity/Enemy/EnemyShipFormation.java:318 | the sweep moves every live listed ship and leaves the other records alone |
| Fleet.LastLiveFilter | src/main/entity/Enemy/EnemyShipFormation.java:322 | removing the destroyed ships does not change a column's last live ship |
| Fleet.SweepKeepsShooters | src/main/entity/Enemy/EnemyShipFormation.java:308-323 | the sweep keeps the roster |
| Fleet.SweepCleansGrid | src/main/entity/Enemy/EnemyShipFormation.java:308-323 | after the sweep no column lists a destroyed ship, and the grid stays well formed |
| Fleet.SweepMoves | src/main/entity/Enemy/EnemyShipFormation.java:318 | every ship the sweep keeps has moved by exactly (dx, dy); a destroyed one is unchanged |
| Fleet.CountLiveFilter | src/main/entity/Enemy/EnemyShipFormation.java:308-322 | the filter keeps a column's live count |
| Fleet.LiveCountSweep | src/main/entity/Enemy/EnemyShipFormation.java:308-323 | the sweep keeps the number of live listed ships |
| Fleet.CountLiveMark | src/main/entity/Enemy/EnemyShipFormation.java:747-755 | flagging a ship lowers a column's count by one exactly when the column lists it alive |
| Fleet.LiveCountDestroyed | src/main/entity/Enemy/EnemyShipFormation.java:746-781 | destroy lowers the number of live listed ships by one exactly when it hits a live listed ship, otherwise by none |
| Fleet.LiveCountMark | src/main/entity/Enemy/EnemyShipFormation.java:747-755 | flagging s lowers the live count of the grid by one exactly when a column lists s alive |
| Fleet.MaxColumnHeightIsMax | src/main/entity/Enemy/EnemyShipFormation.java:342-347 | maxColumn is 0 or some non-empty column's height, and no column is taller |
| Fleet.MinTopYIsMin | src/main/entity/Enemy/EnemyShipFormation.java:340-349 | minPositionY is Integer.MAX_VALUE or some non-empty column's top y, and no column starts higher |
| Fleet.LeftMostIsFirst | src/main/entity/Enemy/EnemyShipFormation.java:361-367 | leftMostPoint is the x of the first non-empty column whose top ship is off x = 0, or 0 |
| Fleet.RightMostIsLast | src/main/entity/Enemy/EnemyShipFormation.java:361-368 | rightMostPoint is the top-ship x of the last non-empty column |
| Fleet.RightMostNone | src/main/entity/Enemy/EnemyShipFormation.java:361-368 | with no non-empty column, rightMostPoint stays 0 |
| Fleet.LeftMostFirst | src/main/entity/Enemy/EnemyShipFormation.java:366-367 | when the first non-empty column's top ship is off x = 0, the left edge is its x |
| Fleet.DropFirstEmpty | src/main/entity/Enemy/EnemyShipFormation.java:338-359 | cleanUp removes one column, and only an empty one: indexOf of an empty list always names the first empty column |
| Fleet.DropFirstEmptyLeavesOthers | src/main/entity/Enemy/EnemyShipFormation.java:352-359 | with two empty columns, an empty column is left after one call |
| Fleet.DropFirstEmptyShooters | src/main/entity/Enemy/EnemyShipFormation.java:356-359 | dropping an empty column keeps the roster |
| Fleet.DropFirstEmptyLiveCount | src/main/entity/Enemy/EnemyShipFormation.java:356-359 | dropping an empty column keeps the live count |
| Fleet.DropFirstEmptyGridOk | src/main/entity/Enemy/EnemyShipFormation.java:356-359 | dropping an empty column keeps the grid well formed |
| Movement.Trunc | src/main/entity/Enemy/EnemyShipFormation.java:251 | the `(int)` cast of a non-negative double is its floor |
| Movement.MovementSpeedAtLeastMinimum | src/main/entity/Enemy/EnemyShipFormation.java:249-252 | movementSpeed is at least MINIMUM_SPEED (10) |
| Movement.MovementSpeedFull | src/main/entity/Enemy/EnemyShipFormation.java:249-252 | a full formation waits baseSpeed + 10 frames |
| Movement.MovementSpeedMonotone | src/main/entity/Enemy/EnemyShipFormation.java:249-252 | fewer ships never mean a longer wait between moves |
| Movement.EdgesOf | src/main/entity/Enemy/EnemyShipFormation.java:258-261 | the altitude test `y % 20 == 0` holds exactly when y is a multiple of the descent distance 20, for either sign of y |
| Movement.Displacement | src/main/entity/Enemy/EnemyShipFormation.java:297-302 | each tick moves by exactly one of ±8 on x or +4 on y |
| Movement.PreviousIsASide | src/main/entity/Enemy/EnemyShipFormation.java:263-295 | the remembered direction is always LEFT or RIGHT |
| Movement.DescentReverses | src/main/entity/Enemy/EnemyShipFormation.java:263-295 | RIGHT then DOWN then altitude gives LEFT, and LEFT then DOWN gives RIGHT |
| Movement.SideMoveKeepsGoing | src/main/entity/Enemy/EnemyShipFormation.java:273-295 | a side move continues while the box is clear of that margin |
| Movement.DescentTakesFiveMoves | src/main/entity/Enemy/EnemyShipFormation.java:261-272 | a descent from the altitude grid ends after exactly five moves of 4 |
| Formation.KindFor | src/main/entity/Enemy/EnemyShipFormation.java:162-167 | row i of h is kind C iff i/h < 0.2, B iff 0.2 ≤ i/h < 0.6, otherwise A |
| Formation.InitialGrid | src/main/entity/Enemy/EnemyShipFormation.java:156-175 | w columns, each listing its h cells top to bottom |
| Formation.InitialShips | src/main/entity/Enemy/EnemyShipFormation.java:169-172 | one live ship per cell, ship (c, i) at (20 + 40c, 100 + 40i) with its row's kind |
| Formation.ApplyChanges | src/main/entity/Enemy/EnemyShipFormation.java:187-195 | each change with hp 0 destroys the ship in its cell, and nothing else changes |
| Formation.Kills | src/main/entity/Enemy/EnemyShipFormation.java:187-195 | the number of changes that destroy a ship is between 0 and the number of changes |
| Formation.InitialGridOk | src/main/entity/Enemy/EnemyShipFormation.java:156-175 | the built grid lists every ship once and every ship is known |
| Formation.InitialLastLive | src/main/entity/Enemy/EnemyShipFormation.java:183-185 | a full column's last live ship is its last ship |
| Formation.InitialShooters | src/main/entity/Enemy/EnemyShipFormation.java:183-185 | the roster built from `column.getLast()` is the roster the grid determines |
| Formation.CellsIsProduct | src/main/entity/Enemy/EnemyShipFormation.java:173 | counting ships column by column gives w · h |
| Formation.LiveCountFull | src/main/entity/Enemy/EnemyShipFormation.java:173 | the built grid counts h live ships per column |
| Formation.InitialFleet | src/main/entity/Enemy/EnemyShipFormation.java:156-185 | the formation as built keeps the fleet invariant with shipCount = w · h |
| Formation.RosterAfterDestroyIsShooters | src/main/entity/Enemy/EnemyShipFormation.java:757-778 | slot repair gives the roster of the grid after the flag |
| Formation.RemoveAll | src/main/entity/Enemy/EnemyShipFormation.java:322 | List.removeAll keeps exactly the entries not in the removed list |
| Formation.RemoveAllDestroyed | src/main/entity/Enemy/EnemyShipFormation.java:308-322 | removing the collected destroyed ships is the live filter |
| Formation.MovedSoFarAll | src/main/entity/Enemy/EnemyShipFormation.java:309-323 | once every listed ship is visited, the records are the sweep's |
| Formation.CreateCooldown | src/main/entity/Enemy/EnemyShipFormation.java:240-243 | after the call the cooldown always exists, and one that already exists is left untouched: only the first update creates it |
| Formation.EnemyShipFormation.constructor | src/main/entity/Enemy/EnemyShipFormation.java:135-212 | the settings' grid and ships are built, the count is w · h minus the kills, the roster is the grid's, and the box starts at (20, 100) |
| Formation.EnemyShipFormation.Populate | src/main/entity/Enemy/EnemyShipFormation.java:156-209 | the constructor's loops leave the built records and columns after the settings, with w · h minus the kills counted |
| Formation.EnemyShipFormation.Build | src/main/entity/Enemy/EnemyShipFormation.java:156-185 | the grid, the records and the roster as built, with w · h ships counted |
| Formation.EnemyShipFormation.Settle | src/main/entity/Enemy/EnemyShipFormation.java:187-209 | the settings' changes are applied, the destroyed ships purged from the columns and the count lowered by the kills |
| Formation.EnemyShipFormation.BuildGrid | src/main/entity/Enemy/EnemyShipFormation.java:156-175 | the nested loop builds InitialGrid and InitialShips and counts w · h ships |
| Formation.EnemyShipFormation.NewColumns | src/main/entity/Enemy/EnemyShipFormation.java:156-158 | w empty columns |
| Formation.EnemyShipFormation.FillColumn | src/main/entity/Enemy/EnemyShipFormation.java:161-174 | column c gets its h ships in order, each added to the records |
| Formation.EnemyShipFormation.BuildRoster | src/main/entity/Enemy/EnemyShipFormation.java:183-185 | the roster is each column's last ship, in column order |
| Formation.EnemyShipFormation.ApplySettings | src/main/entity/Enemy/EnemyShipFormation.java:187-195 | each change with hp 0 runs destroy on its cell's ship |
| Formation.EnemyShipFormation.Purge | src/main/entity/Enemy/EnemyShipFormation.java:197-209 | every column drops its destroyed ships |
| Formation.EnemyShipFormation.GetNextShooter | src/main/entity/Enemy/EnemyShipFormation.java:790-800 | the loop returns LastLive of the column |
| Formation.EnemyShipFormation.Members | src/main/entity/Enemy/EnemyShipFormation.java:808-815 | iterator() yields exactly the ships some column lists |
| Formation.EnemyShipFormation.NoShootersIsEmpty | src/main/entity/Enemy/EnemyShipFormation.java:825-827 | a formation whose roster is empty reports isEmpty |
| Formation.EnemyShipFormation.Shoot | src/main/entity/Enemy/EnemyShipFormation.java:379-409 | one ShootStep of the scheduler, and the bullets the fired ships spawn |
| Formation.EnemyShipFormation.Destroy | src/main/entity/Enemy/EnemyShipFormation.java:746-781 | the ship is flagged, the roster becomes the new grid's, shipCount falls by exactly 1 even for a ship already destroyed, and the fleet invariant holds |
| Formation.EnemyShipFormation.RepairRoster | src/main/entity/Enemy/EnemyShipFormation.java:757-778 | the roster becomes RosterAfterDestroy |
| Formation.EnemyShipFormation.MarkColumns | src/main/entity/Enemy/EnemyShipFormation.java:747-755 | the marking loop yields Destroyed |
| Formation.EnemyShipFormation.FindColumn | src/main/entity/Enemy/EnemyShipFormation.java:762-767 | the scan returns ColumnOf |
| Formation.EnemyShipFormation.Sweep | src/main/entity/Enemy/EnemyShipFormation.java:308-323 | the columns and records become SweepColumns and SweepShips |
| Formation.EnemyShipFormation.SweepColumn | src/main/entity/Enemy/EnemyShipFormation.java:310-322 | one column keeps its live ships, each moved |
| Formation.EnemyShipFormation.Update | src/main/entity/Enemy/EnemyShipFormation.java:239-332 | cooldown, cleanUp, speed, frame count; on a move tick: turn, step, sweep and the pattern start; the fleet invariant is kept |
| Formation.EnemyShipFormation.Advance | src/main/entity/Enemy/EnemyShipFormation.java:247-331 | the frame count and, when it reaches the speed, the move |
| Formation.EnemyShipFormation.Pace | src/main/entity/Enemy/EnemyShipFormation.java:249-256 | movementSpeed from the ships left, and movementInterval stays below it after a move |
| Formation.EnemyShipFormation.Tidy | src/main/entity/Enemy/EnemyShipFormation.java:240-245 | the cooldown is created on the first call, then cleanUp |
| Formation.EnemyShipFormation.Move | src/main/entity/Enemy/EnemyShipFormation.java:258-330 | turn, step the box, sweep and maybe start a pattern |
| Formation.EnemyShipFormation.Turn | src/main/entity/Enemy/EnemyShipFormation.java:258-305 | the direction becomes NextDirection of the edges, and the box moves by Displacement |
| Formation.EnemyShipFormation.SweepTick | src/main/entity/Enemy/EnemyShipFormation.java:307-330 | the sweep, then StartPattern |
| Formation.EnemyShipFormation.CleanUp | src/main/entity/Enemy/EnemyShipFormation.java:337-377 | the first empty column goes; x is the left edge, width is right − left + shipWidth, y the highest top, height the tallest column |
| Formation.EnemyShipFormation.MeasureColumns | src/main/entity/Enemy/EnemyShipFormation.java:338-354 | the first loop yields MaxColumnHeight, MinTopY and whether a column is empty |
| Formation.EnemyShipFormation.Edges | src/main/entity/Enemy/EnemyShipFormation.java:361-370 | the last loop yields LeftMost and RightMost |
| Formation.DestroyKeepsFleet | src/main/entity/Enemy/EnemyShipFormation.java:746-781 | destroy keeps the grid well formed, the roster the grid's and the count within the live ships |
| Formation.DropFirstEmptyKeepsFleet | src/main/entity/Enemy/EnemyShipFormation.java:356-359 | cleanUp's removal keeps the fleet invariant |
| Formation.SweepStill | src/main/entity/Enemy/EnemyShipFormation.java:197-209 | the constructor's sweep, with no step, changes no ship record |
| Formation.SweepKeepsFleet | src/main/entity/Enemy/EnemyShipFormation.java:308-323 | the sweep keeps the fleet invariant |
| Formation.MarkTwice | src/main/entity/Enemy/EnemyShipFormation.java:750 | flagging a ship twice is flagging it once |
| Formation.ColumnOfFirst | src/main/entity/Enemy/EnemyShipFormation.java:762-767 | the first column listing the ship is ColumnOf |
| Formation.DestroyedKeepsGridOk | src/main/entity/Enemy/EnemyShipFormation.java:747-755 | flags keep the grid well formed |
| Formation.SweepFresh | src/main/entity/Enemy/EnemyShipFormation.java:309-321 | a ship the sweep reaches has not been visited before |
| Formation.MeasureStep | src/main/entity/Enemy/EnemyShipFormation.java:342-354 | one more column in cleanUp's first loop |
| Formation.EdgesStep | src/main/entity/Enemy/EnemyShipFormation.java:364-370 | one more column in cleanUp's last loop |
| Patterns.SelectPatternByLevel | src/entity/Enemy/EnemyShipFormation.java:647-655 | level 1 → WAVE, 2 → SIDE_WAVE, 3 → FOCUS, 4 → RANDOM_BURST, any other → NONE |
| Patterns.InitPatternState | src/entity/Enemy/EnemyShipFormation.java:657-682 | the chosen pattern's counters are zeroed and no others change |
| Patterns.StartPatternSpec | src/entity/Enemy/EnemyShipFormation.java:275-281 | a pattern starts only from NONE once 7000 ms have passed; otherwise nothing changes |
| Patterns.AvailableGroups | src/entity/Enemy/EnemyShipFormation.java:431-436 | exactly the non-empty groups, in order |
| Patterns.ColumnEnds | src/entity/Enemy/EnemyShipFormation.java:516-524 | the last ships of the one-ship columns and of the taller columns, in column order |
| Patterns.Triple | src/entity/Enemy/EnemyShipFormation.java:568-576 | every ship three times in a row |
| Patterns.FireNormalRandom | src/entity/Enemy/EnemyShipFormation.java:371-375 | one roster member fires, at index (int)(rand · n) |
| Patterns.ShootStep | src/entity/Enemy/EnemyShipFormation.java:323-353 | one `shoot` call: nothing on an empty roster; otherwise the current pattern's handler |
| Patterns.ShootStepKeepsSchedOk | src/entity/Enemy/EnemyShipFormation.java:323-353 | every handler keeps the counters in range |
| Patterns.CooldownGate | src/entity/Enemy/EnemyShipFormation.java:323-353 | the cooldown gates only NONE and RANDOM_BURST, which reset it when they act; WAVE, SIDE_WAVE and FOCUS ignore it |
| Patterns.ShootNKeepsSchedOk | src/entity/Enemy/EnemyShipFormation.java:323-353 | any number of calls keeps the counters in range |
| Patterns.StepActsOnWaves | src/entity/Enemy/EnemyShipFormation.java:329-334 | with a roster, WAVE and SIDE_WAVE go to their handlers whatever the cooldown |
| Patterns.WaveWait | src/entity/Enemy/EnemyShipFormation.java:355-369 | below the 20th call a wave step only counts |
| Patterns.WaveTwenty | src/entity/Enemy/EnemyShipFormation.java:355-369 | 19 calls count, the 20th fires the handler |
| Patterns.WaveSegment | src/entity/Enemy/EnemyShipFormation.java:377-393 | twenty calls fire shooters[waveIndex], or end the wave once the index reaches the roster size |
| Patterns.WaveRun | src/entity/Enemy/EnemyShipFormation.java:355-393 | over an unchanged roster of n, 20(n + 1) calls fire every shooter once, left to right, and end in NONE |
| Patterns.SideWaveSegment | src/entity/Enemy/EnemyShipFormation.java:395-417 | twenty calls fire the next pair, or end once pairIndex ≥ (n + 1)/2 |
| Patterns.SideWaveRun | src/entity/Enemy/EnemyShipFormation.java:363-417 | over an unchanged roster of n, the pairs fire from the outside in, each member once, then NONE |
| Patterns.FocusGroupsPartition | src/entity/Enemy/EnemyShipFormation.java:487-508 | with t = n/3 the groups are [0,t), [t,2t), [2t,n): they concatenate to the roster, the last is non-empty for n ≥ 1, and all are empty for n = 0 |
| Patterns.StepActsOnFocus | src/entity/Enemy/EnemyShipFormation.java:335-337 | with a roster, FOCUS goes to fireFocusPattern whatever the cooldown |
| Patterns.FocusWait | src/entity/Enemy/EnemyShipFormation.java:449-451 | below the 10th call with a group selected, a step only counts |
| Patterns.FilterLiveFrom | src/entity/Enemy/EnemyShipFormation.java:461-465 | the live members from the k-th on are the k-th if live, then the rest |
| Patterns.FocusNine | src/entity/Enemy/EnemyShipFormation.java:449-452 | ten calls from a fresh frame counter: nine count, the tenth acts |
| Patterns.FocusFires | src/entity/Enemy/EnemyShipFormation.java:461-465 | the tenth call fires the next member if live; a destroyed one is skipped but the step still advances |
| Patterns.FocusEnds | src/entity/Enemy/EnemyShipFormation.java:456-459 | once every member had its turn, the tenth call ends the group |
| Patterns.FocusTurn | src/entity/Enemy/EnemyShipFormation.java:449-465 | one member's turn followed by the rest of the group is the group from that member on |
| Patterns.FocusGroupRun | src/entity/Enemy/EnemyShipFormation.java:419-485 | a selected group's live members fire one every 10 calls, in order; after 10(m + 1) calls the group is deselected, counted, and a 500 ms pause starts |
| Patterns.FocusExhausted | src/entity/Enemy/EnemyShipFormation.java:422-425 | ten groups used: the next call ends the pattern |
| Patterns.FocusSelect | src/entity/Enemy/EnemyShipFormation.java:427-447 | with no group selected: nothing before the pause ends, then a non-empty group is chosen, or the pattern ends when none is left |
| Patterns.StepActsOnBurst | src/entity/Enemy/EnemyShipFormation.java:338-343 | with the cooldown elapsed, RANDOM_BURST resets it and runs its handler |
| Patterns.BurstCall | src/entity/Enemy/EnemyShipFormation.java:510-549 | one burst call as a run of length one |
| Patterns.BurstCycle | src/entity/Enemy/EnemyShipFormation.java:510-549 | one cycle: a volley, two waits, a second volley, the triple volley, and the cycle counted |
| Patterns.BurstPause | src/entity/Enemy/EnemyShipFormation.java:511-513 | a pending wait is counted down and nothing fires |
| Patterns.BurstFirstCycle | src/entity/Enemy/EnemyShipFormation.java:510-549 | seven calls: the first cycle and the pause after it |
| Patterns.BurstRun | src/entity/Enemy/EnemyShipFormation.java:510-558 | twelve calls over an unchanged formation fire volley, volley, triple twice, then end in NONE with the counters zeroed |
| Pairs.SidePair | src/entity/Enemy/EnemyShipFormation.java:407-414 | pair k is shooters[k] and shooters[n−1−k], once when they coincide |
| Pairs.MiddleWrap | src/entity/Enemy/EnemyShipFormation.java:407-414 | peeling both ends off the middle slice |
| Pairs.PairsWrap | src/entity/Enemy/EnemyShipFormation.java:395-417 | while the ends differ, the pairs fire both ends, then the rest |
| Pairs.PairsLast | src/entity/Enemy/EnemyShipFormation.java:398-413 | then the middle alone, or nothing |
| Pairs.SidePairsCover | src/entity/Enemy/EnemyShipFormation.java:395-417 | the pairs from k on cover [k, n−k) of the roster, each member once |
| Pairs.SideWaveFiresEachOnce | src/entity/Enemy/EnemyShipFormation.java:395-417 | a side wave fires n shots for a roster of n; an odd middle fires once |
| EnemyBullets.Half | src/entity/Enemy/EnemyShipFormation.java:607 | Java's int division by 2 truncates toward zero |
| EnemyBullets.SpawnBullets | src/entity/Enemy/EnemyShipFormation.java:578-645 | B ships fire at speed 8, others at 4; C ships fire two bullets at centre ± 6, others one at the centre; spawn y is y + height |
| EnemyBullets.BulletsFor | src/entity/Enemy/EnemyShipFormation.java:560-566 | the bullets of the fired ships, one ship after another |
| EnemyBullets.SpawnAll | src/entity/Enemy/EnemyShipFormation.java:578-645 | the loop adds exactly BulletsFor |
| EnemyBullets.BulletsForAppend | src/entity/Enemy/EnemyShipFormation.java:560-566 | firing two lists one after the other spawns both, in order |
| EnemyBullets.OneBulletPerShot | src/entity/Enemy/EnemyShipFormation.java:592-596 | a roster without C ships fires one bullet per shot |
| EnemyBullets.CountCBounds | src/entity/Enemy/EnemyShipFormation.java:592-596 | between one and two bullets per shot |
| BossEnemy.PhaseOf | src/main/entity/Boss.java:47-62 | hp > 60 → phase 1, 30 < hp ≤ 60 → phase 2, hp ≤ 30 → phase 3 |
| BossEnemy.PhaseNeverReturns | src/main/entity/Boss.java:47-62 | damage never sends the boss back to an earlier phase |
| BossEnemy.Patrol | src/main/entity/Boss.java:84-93 | after a phase-1 step, 20 ≤ x ≤ 350 and the speed keeps its magnitude |
| BossEnemy.PatrolTurnsInward | src/main/entity/Boss.java:84-93 | a bounce always turns the boss back inwards |
| BossEnemy.PatrolSteady | src/main/entity/Boss.java:84-93 | without a bounce, x moves by exactly the speed |
| BossEnemy.Fan | src/main/entity/Boss.java:123-140 | five bullets with vx in {-3,-1,0,1,3}, vy = 5, 4 × 8, from one point |
| BossEnemy.FanSymmetric | src/main/entity/Boss.java:123-140 | each fan bullet has a mirror image with the opposite vx |
| BossEnemy.StraightColumn | src/main/entity/Boss.java:160-163 | five straight bullets at y = cy + 15i |
| BossEnemy.VolleyShape | src/main/entity/Boss.java:147-166 | a phase-3 volley is ten enemy bullets from one x; exactly the fan's middle and the column go straight down |
| BossEnemy.FireFan | src/main/entity/Boss.java:155-158 | the loop over the speed array adds Fan |
| BossEnemy.FireColumn | src/main/entity/Boss.java:160-163 | the second loop adds StraightColumn |
| BossEnemy.Boss.constructor | src/main/entity/Boss.java:28-44 | 100 hp, no damage, not destroyed, the special sprite |
| BossEnemy.Boss.Update | src/main/entity/Boss.java:47-62 | the phase of the current hp runs; the invariant holds |
| BossEnemy.Boss.PatternPhase1 | src/main/entity/Boss.java:84-93 | x becomes Patrol's, clamped to [20, 350] |
| BossEnemy.Boss.MovePattern | src/main/entity/Boss.java:169-184 | the parameter advances 0.03 and the boss stands on the figure-eight |
| BossEnemy.Boss.ShootStraight | src/main/entity/Boss.java:98-112 | one straight bullet from the bottom centre when the cooldown has finished, none otherwise |
| BossEnemy.Boss.ShootSpread | src/main/entity/Boss.java:123-140 | the fan when the cooldown has finished, none otherwise |
| BossEnemy.Boss.ShootVolley | src/main/entity/Boss.java:147-166 | fan plus column when the cooldown has finished, none otherwise |
| BossEnemy.Boss.Hit | src/main/entity/Boss.java:190-200 | hp falls by d and totalDamage rises by d; at 0 or below the boss is destroyed |
| BossEnemy.Boss.Destroy | src/main/entity/Boss.java:202-206 | destroyed and exploding, never cleared |
| ShipTypes.AllUpgradesComplete | src/main/engine/upgrade/ShipUpgradeManager.java:116 | ShipUpgradeType.values() lists every attribute |
| ShipTypes.FillLevels | src/main/engine/upgrade/ShipUpgradeManager.java:116-118 | putIfAbsent of level 1 adds exactly the missing attributes and keeps the rest |
| ShipTypes.WithDefaults | src/main/engine/upgrade/ShipUpgradeManager.java:113-120 | every library ship gets all four attributes, stored levels are kept, other entries untouched |
| ShipTypes.WithDefaultsKeepsLevels | src/main/engine/upgrade/ShipUpgradeManager.java:155-158 | getLevel answers the same before and after the defaults are filled: a missing entry reads as 1 |
| ShipTypes.PutDefaults | src/main/engine/upgrade/ShipUpgradeManager.java:116-118 | the inner loop yields FillLevels |
| ShipTypes.AddDefaults | src/main/engine/upgrade/ShipUpgradeManager.java:113-120 | the outer loop yields WithDefaults |
| ShipTypes.DefaultsFilled | src/main/engine/upgrade/ShipUpgradeManager.java:113-120 | a map with the loop's entries is WithDefaults |
| ShipTypes.WithDefaultsIdempotent | src/main/engine/upgrade/ShipUpgradeManager.java:113-120 | filling the defaults twice is filling them once |
| ShipTypes.ResetLevels | src/main/engine/upgrade/ShipUpgradeManager.java:213-215 | same attributes, all at level 1 |
| Economy.UpgradeCost | src/main/engine/upgrade/ShipUpgradeManager.java:165-171 | 0 at or above level 10; between 50 and 900 for levels 1 to 9 |
| Economy.UpgradeCostRises | src/engine/ShipUpgradeManager.java:105-111 | under both price lists each level costs more than the one before |
| Economy.TotalCost | src/main/engine/upgrade/ShipUpgradeManager.java:273-279 | never negative, and 0 up to level 1 |
| Economy.TotalCostIsCostsPaid | src/main/engine/upgrade/ShipUpgradeManager.java:273-279 | totalCostForLevel(L) is exactly the upgrade costs paid from 1 to L |
| Economy.ClimbCost | src/main/engine/upgrade/ShipUpgradeManager.java:273-279 | one more level adds its upgrade cost to the total |
| Economy.TotalCostClosedForm | src/main/engine/upgrade/ShipUpgradeManager.java:273-279 | the current total is 50 · L · (L − 1) |
| Economy.LegacyTotalCostClosedForm | src/engine/ShipUpgradeManager.java:177-183 | the older total is 25 · (L − 1) · (L + 2) / 2 |
| Economy.TotalCostForLevel | src/main/engine/upgrade/ShipUpgradeManager.java:273-279 | the accumulator loop computes TotalCost |
| Economy.RefundOver | src/main/engine/upgrade/ShipUpgradeManager.java:249-259 | a refund is never negative |
| Economy.RefundAmount | src/main/engine/upgrade/ShipUpgradeManager.java:249-259 | the loop computes Refund |
| Economy.ResetEntries | src/main/engine/upgrade/ShipUpgradeManager.java:206-220 | the loop yields ResetLevels and the Refund |
| Economy.UpgradeTypesListed | src/main/engine/upgrade/ShipUpgradeManager.java:116 | each attribute appears once in the enum list |
| Economy.RefundUpdate | src/main/engine/upgrade/ShipUpgradeManager.java:249-259 | changing one level changes the refund by the difference of the two climbs |
| Economy.RefundAtBase | src/main/engine/upgrade/ShipUpgradeManager.java:249-259 | levels all at 1 are worth no refund |
| Economy.Upgrade | src/main/engine/upgrade/ShipUpgradeManager.java:181-198 | refused exactly at level ≥ 10 or coins < cost; on success, coins fall by the cost and stay ≥ 0, and only that level rises by 1 |
| Economy.UpgradeSucceeds | src/main/engine/upgrade/ShipUpgradeManager.java:187-195 | the state after an accepted upgrade |
| Economy.UpgradeAll | src/main/engine/upgrade/ShipUpgradeManager.java:181-198 | a run of upgrades keeps the attributes; a refused call changes nothing |
| Economy.Reset | src/main/engine/upgrade/ShipUpgradeManager.java:206-220 | every level back to 1, the refund credited, the worth kept, nothing left to refund |
| Economy.UpgradeKeepsWorth | src/main/engine/upgrade/ShipUpgradeManager.java:187-195 | a successful upgrade keeps coins + refund and the levels within 1..10 |
| Economy.UpgradeAllKeepsWorth | src/main/engine/upgrade/ShipUpgradeManager.java:181-198 | any run of upgrades keeps the worth and the level range |
| Economy.RoundTrip | src/main/engine/upgrade/ShipUpgradeManager.java:200-220 | from all levels at 1, any upgrades followed by resetShip restore the levels and the coins |
| ShipUpgrades.Upgraded | src/main/engine/upgrade/ShipUpgradeManager.java:299-329 | interval = max(200, base − 25(rate − 1)), never above the base; maxHp = base + (level − 1); size and bullet fields copied |
| ShipUpgrades.UpgradedAtLevelOne | src/main/engine/upgrade/ShipUpgradeManager.java:299-329 | at level 1 everywhere the base stats are kept |
| ShipUpgrades.UpgradedIntervalMonotone | src/main/engine/upgrade/ShipUpgradeManager.java:299-329 | a higher fire-rate level never lengthens the interval |
| ShipUpgrades.AttackStep | src/main/engine/upgrade/ShipUpgradeManager.java:299-329 | each attack level adds 0.3 |
| ShipUpgrades.ApplyUpgrades | src/main/engine/upgrade/ShipUpgradeManager.java:299-330 | only the named ship's entry is recomputed, and only when it has base stats and levels |
| ShipUpgrades.ApplyKeepsConsistent | src/main/engine/upgrade/ShipUpgradeManager.java:299-330 | recomputing after a level change keeps the library consistent with the levels |
| ShipUpgrades.UpgradeLibrary | src/main/engine/upgrade/ShipUpgradeManager.java:285-289 | every library ship is recomputed from its base stats and levels |
| ShipUpgrades.ShipUpgradeManager.constructor | src/main/engine/upgrade/ShipUpgradeManager.java:30-96 | base stats snapshot, saved levels and coins (the coin file wins), defaults filled, library recomputed |
| ShipUpgrades.ShipUpgradeManager.EnsureDefaultLevels | src/main/engine/upgrade/ShipUpgradeManager.java:113-120 | the levels become WithDefaults |
| ShipUpgrades.ShipUpgradeManager.ApplyAllUpgrades | src/main/engine/upgrade/ShipUpgradeManager.java:285-289 | the library becomes consistent with the levels |
| ShipUpgrades.ShipUpgradeManager.SetCoins | src/main/engine/upgrade/ShipUpgradeManager.java:134-137 | coins = max(0, amount) |
| ShipUpgrades.ShipUpgradeManager.AddCoins | src/main/engine/upgrade/ShipUpgradeManager.java:144-147 | coins = max(0, coins + delta) |
| ShipUpgrades.ShipUpgradeManager.UpgradeStat | src/main/engine/upgrade/ShipUpgradeManager.java:181-198 | succeeds exactly when Upgrade does, with its state and the ship's library entry recomputed; otherwise nothing changes |
| ShipUpgrades.ShipUpgradeManager.ResetShip | src/main/engine/upgrade/ShipUpgradeManager.java:206-220 | the refund is getRefundAmount's, coins rise by it and the levels go back to 1; 0 and no change for an unknown ship |
| ShipUpgrades.ShipUpgradeManager.GetRefundAmount | src/main/engine/upgrade/ShipUpgradeManager.java:249-259 | Refund of the ship's levels, 0 for an unknown ship, never negative |
| LegacyShipUpgrades.Upgraded | src/engine/ShipUpgradeManager.java:191-222 | attack, move speed and hp are base + (level − 1); interval = max(200, base − 50(rate − 1)) |
| LegacyShipUpgrades.UpgradedAtLevelOne | src/engine/ShipUpgradeManager.java:191-222 | at level 1 everywhere the base stats are kept |
| LegacyShipUpgrades.UpgradedIntervalMonotone | src/engine/ShipUpgradeManager.java:191-222 | a higher fire-rate level never lengthens the interval |
| LegacyShipUpgrades.AttackThreeBecomesFour | src/engine/ShipUpgradeManager.java:191-222 | a base attack of 3 becomes 4 after one upgrade |
| LegacyShipUpgrades.ApplyUpgrades | src/engine/ShipUpgradeManager.java:191-222 | only the named ship's entry is recomputed |
| LegacyShipUpgrades.ApplyKeepsConsistent | src/engine/ShipUpgradeManager.java:191-222 | recomputing after a level change keeps the library consistent |
| LegacyShipUpgrades.UpgradeLibrary | src/engine/ShipUpgradeManager.java:185-189 | every library ship is recomputed |
| LegacyShipUpgrades.ShipUpgradeManager.constructor | src/engine/ShipUpgradeManager.java:26-72 | saved levels and coins, defaults filled, library recomputed |
| LegacyShipUpgrades.ShipUpgradeManager.EnsureDefaultLevels | src/engine/ShipUpgradeManager.java:82-89 | the levels become WithDefaults |
| LegacyShipUpgrades.ShipUpgradeManager.ApplyAllUpgrades | src/engine/ShipUpgradeManager.java:185-189 | the library becomes consistent with the levels |
| LegacyShipUpgrades.ShipUpgradeManager.AddCoins | src/engine/ShipUpgradeManager.java:95-98 | coins = max(0, coins + delta) |
| LegacyShipUpgrades.ShipUpgradeManager.UpgradeStat | src/engine/ShipUpgradeManager.java:113-130 | succeeds exactly when Upgrade under the older prices does; otherwise nothing changes |
| LegacyShipUpgrades.ShipUpgradeManager.ResetShip | src/engine/ShipUpgradeManager.java:132-146 | the refund is getRefundAmount's, and every level goes back to 1 |
| LegacyShipUpgrades.ShipUpgradeManager.GetRefundAmount | src/engine/ShipUpgradeManager.java:161-171 | Refund under the older prices, 0 for an unknown ship |
| PlayerStats.PlayerShipStats.constructor | src/main/entity/Player/PlayerShipStats.java:19-31 | maxHP = curHP = HP, exp = 0, every other field as given |
| PlayerStats.PlayerShipStats.SetCurHp | src/main/entity/Player/PlayerShipStats.java:38 | only curHP changes |
| PlayerStats.PlayerShipStats.SetAtk | src/main/entity/Player/PlayerShipStats.java:41 | only ATK changes |
| PlayerStats.PlayerShipStats.AddSpeed | src/main/entity/Player/PlayerShipStats.java:44 | moveSpeed rises by delta |
| PlayerStats.PlayerShipStats.AddBulletSpeed | src/main/entity/Player/PlayerShipStats.java:47 | bulletSpeed rises by delta |
| PlayerStats.PlayerShipStats.AddShootingInterval | src/main/entity/Player/PlayerShipStats.java:50 | shootingInterval rises by delta |
| PlayerStats.PlayerShipStats.AddExp | src/main/entity/Player/PlayerShipStats.java:55 | exp rises by delta |
| PlayerStats.PlayerShipStats.ResetExp | src/main/entity/Player/PlayerShipStats.java:57 | exp falls by exactly 100 |
| PlayerStats.GainLevelThenSpend | src/main/entity/Player/PlayerShipStats.java:55-57 | addExp(100) then resetExp leaves exp unchanged |
| PlayerStats.ExpScenario | src/main/entity/Player/PlayerShipStats.java:55-57 | 30, then 80 more, then one reset leave 30, 110 and 10 |
| PlayerStats.SettersScenario | src/main/entity/Player/PlayerShipStats.java:38-50 | hp 40, attack 12, speeds 3 + 2 = 5 and 7 + 3 = 10, interval 200 − 50 = 150, maxHP still 50 |
| StatEffects.IntervalAfter | src/main/engine/augment/effectDB/StatEffect.java:37-41 | the INTERVAL branch's amount leaves max(50, interval − delta) |
| StatEffects.IntervalShrinks | src/main/engine/augment/effectDB/StatEffect.java:37-41 | a positive delta shortens an interval above 50 and keeps it at least 50 |
| StatEffects.IntervalAfterComposes | src/main/engine/augment/effectDB/StatEffect.java:37-41 | two interval augments in a row (the second non-negative) are one of their sum |
| StatEffects.Apply | src/main/engine/augment/effectDB/StatEffect.java:26-43 | ATTACK adds delta to ATK, SPEED to moveSpeed, BULLET_SPEED subtracts it from bulletSpeed, INTERVAL leaves IntervalAfter; only that stat changes |
| StatEffects.FloorScenario | src/main/engine/augment/effectDB/StatEffect.java:37-41 | an interval of 0 hit by 9999 ends at 50 |
| PlayerShipModel.SpeedMultiplier | src/entity/Player/PlayerShip.java:186-195 | 1 without a game state or without BULLETSPEEDUP, else the effect's value |
| PlayerShipModel.TripleShotOffset | src/entity/Player/PlayerShip.java:182-184 | present exactly with a game state that has TRIPLESHOT |
| PlayerShipModel.ShotOffsets | src/entity/Player/PlayerShip.java:148-161 | three offsets 0, −d, +d with triple shot; −6, +6 for DoubleShot; one at 0 otherwise |
| PlayerShipModel.VolleyShape | src/entity/Player/PlayerShip.java:96-107 | each bullet starts at (x + width/2 + its offset, y − bulletHeight), with the shot speed, the stats' bullet size and the ship's team |
| PlayerShipModel.VolleySymmetric | src/entity/Player/PlayerShip.java:148-161 | every volley is symmetric about the ship's centre |
| PlayerShipModel.SpriteAfterUpdate | src/entity/Player/PlayerShip.java:112-127 | while destroyed no sprite is live, otherwise none is a wreck; only the four ships change |
| PlayerShipModel.DestroyThenRecover | src/entity/Player/PlayerShip.java:112-127 | destroyed then recovered gives back the sprite the ship had |
| PlayerShipModel.RecoverThenDestroy | src/entity/Player/PlayerShip.java:112-127 | recovered then destroyed gives back the wreck sprite |
| PlayerShipModel.SpriteAfterUpdateIdempotent | src/entity/Player/PlayerShip.java:112-127 | updating twice in the same state is updating once |
| PlayerShipModel.PlayerShip.constructor | src/entity/Player/PlayerShip.java:50-65 | a type not in the library falls back to Normal for both stats and sprite; the shooting cooldown is the stats' interval |
| PlayerShipModel.PlayerShip.MoveRight | src/entity/Player/PlayerShip.java:72 | x rises by the move speed |
| PlayerShipModel.PlayerShip.MoveLeft | src/entity/Player/PlayerShip.java:77 | x falls by the move speed |
| PlayerShipModel.PlayerShip.MoveUp | src/entity/Player/PlayerShip.java:78 | y falls by the move speed |
| PlayerShipModel.PlayerShip.MoveDown | src/entity/Player/PlayerShip.java:79 | y rises by the move speed |
| PlayerShipModel.PlayerShip.MoveAndBack | src/entity/Player/PlayerShip.java:72-79 | moving right then left and up then down returns the ship to where it was |
| PlayerShipModel.PlayerShip.Shoot | src/entity/Player/PlayerShip.java:89-107 | false and no bullets while the cooldown runs; otherwise the cooldown is reset and the Volley is added |
| PlayerShipModel.PlayerShip.Update | src/entity/Player/PlayerShip.java:112-127 | the sprite becomes SpriteAfterUpdate of the destruction cooldown |
| PlayerShipModel.PlayerShip.Destroy | src/entity/Player/PlayerShip.java:132-134 | the destruction cooldown restarts now |
| PlayerShipModel.PlayerShip.SetTeam | src/main/entity/Entity.java:90 | a missing team means neutral |
| PlayerShipModel.PlayerShip.AddHit | src/entity/Player/PlayerShip.java:197-199 | hits rises by one |
| PlayerShipModel.PlayerShip.ResetPosition | src/entity/Player/PlayerShip.java:201-204 | the position becomes the given one |

## Left out

- Drawing, screens, sprites' colours and animation (`draw`, `attach`, `animateColor`, the boss's colour on hit), logging and the `EnemyShip.update` sprite flip: they do not affect the game state modelled here.
- The wall clock, `Math.random()` and cooldown timing are inputs, because they are I/O. A cooldown is the time of its last reset plus a "finished" input. `isDestroyed` on the player ship is the negation of that input.
- Floating point: the `float` fields (attack, move speed, bullet speed) are exact reals. `Math.pow` and `(int)` of the formation's speed ratio are exact real arithmetic followed by truncation. The boss's `Math.sin`/`Math.cos` offsets are integer inputs.
- Formation.KindFor: decides the row kind in exact arithmetic (5i < h), while the source compares a `float` quotient with 0.2f and 0.6f. The two can differ on float rounding at the exact boundaries.
- `EnemyShip.changeShip` for settings changes with a non-zero hp: it only retunes one ship's stats, which are not part of the model.
- 32-bit wrap-around of `shipCount`, coins, positions and the bullet speed product: all integers are unbounded.
- The singletons and global tables (`getInstance`, `PlayerShipLibrary`, the augment library): the library is a map passed in or held as a field. `cacheBaseStats` is the constructor's snapshot of that map.
- File I/O of the upgrade managers: `loadFromFile` results are optional constructor parameters. `saveToFile` is not modelled. `getLevelsSnapshot`, `getLevels`, `getUpgradedStats` and `getSupportedShips` are plain accessors and are not modelled.
- ShipUpgrades.ShipUpgradeManager.UpgradeStat: requires that a ship with levels has the attribute asked for. The source throws when it unboxes a missing level (src/main/engine/upgrade/ShipUpgradeManager.java:186). The constructor's defaults fill every attribute only for the library's ship types; a loaded entry for another type can still lack one, and that call is outside the model.
- LegacyShipUpgrades.ShipUpgradeManager.UpgradeStat: the same requires and the same reason. The older manager throws when it unboxes a missing level (src/engine/ShipUpgradeManager.java:118), and the model does not cover that call.
- Formation.EnemyShipFormation.constructor: requires w > 0 and h > 0, and every settings change to name a cell on the grid. With a zero width or height, `getFirst()` throws at src/main/entity/Enemy/EnemyShipFormation.java:177. With an off-grid cell, `get(x).get(y)` throws at line 188. The model does not cover those crashes.
- Formation.EnemyShipFormation.Shoot: requires that the cooldown exists whenever the roster is non-empty. `update` creates the cooldown on its first call (lines 240-243), and `shoot` reads it without a null check (lines 379-409). A `shoot` before the first `update` would throw on the missing cooldown, and the model does not cover it.
- PlayerShipModel.PlayerShip.constructor: requires Normal in the library. With neither the type nor Normal in the library, the stats stay null and `getShootingInterval()` throws at src/entity/Player/PlayerShip.java:61. The model does not cover that crash.
- PlayerShipModel.PlayerShip.SetTeam: the older tree's `Entity` class, which the older player ship extends, is not part of this model. SetTeam follows `setTeam` in the current tree's `Entity` (src/main/entity/Entity.java:90, default team at line 33), assuming the two agree.
- The older `PlayerShipStats` class and the older ship library are not part of this model. The older player ship's stats are taken to be all-integer, as the older upgrade manager builds them.
- The item effects: `GameState.hasEffect(TRIPLESHOT)` is taken to hold exactly when its value is present. With the effect active and no value, unboxing the missing value would throw in the source.
- `BulletPool`: pooled bullets are fresh values, and the caller's `Set<Bullet>` is the sequence of bullets added.
- The older `StatEffect` (`src/engine/...`) depends on a stats class that is not part of this model. Its INTERVAL branch also differs from the current one: it adds interval − delta.
- Disagreement between test and code: the upgrade-manager test sits in the current tree's test directory, but it imports `main.engine.ShipUpgradeManager` (src/test/main/engine/ShipUpgradeManagerTest/ShipUpgradeManagerTest.java:4). Neither manager declares that class: the current one is in package `main.engine.upgrade` and the older one in package `engine`. The test expects a base attack of 3 to become 4 after one upgrade (line 97). Only the older manager does that (`LegacyShipUpgrades.AttackThreeBecomesFour`). The current manager adds 0.3 per level, so 3 becomes 3.3 (`ShipUpgrades.AttackStep`). The model follows the code.
