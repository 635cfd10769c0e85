# Tank arena: simulation and AI core

A model, in Dafny, of the simulation and AI core of a two-tank arena game
(`index.tsx`). Two tanks drive around an arena with rectangular barriers.
They fire bullets that bounce once and pick up timed or standing power-ups.
A point is scored when a bullet hits the other tank, and the first to three
points wins. In a one-player game, player 2 is driven by an AI, which
  - evades incoming bullets,
  - re-plans periodically toward a power-up, the opponent or a cover spot,
  - follows an A* path over a navigation grid, smoothed by line of sight,
  - fires at a predicted opponent position.

Modules follow the parts of the program:

- `Common`: min/max/abs/clamp, and `Platform`, the floating-point library
  functions (cos, sin, atan2, hypot) held as abstract functions.
- `Geometry`: points, barriers, the circle and rectangle collision tests and
  the sampled line of sight (`isLineOfSightClear`).
- `Angles`: the angle-wrapping loops and the clamped turn step.
- `NavGrid`: the navigation grid and `createNavGrid`.
- `GridPaths`, `SearchState`, `Smoothing`: the vocabulary the pathfinder is
  proved against: legal 8-connected steps without corner cutting, the A*
  search invariant, and what a smoothed path is.
- `Pathfinder`: `findPath` (closest-free-cell search, A*, path
  reconstruction) and `smoothPath`.
- `Entities`: tanks, bullets, power-ups, the field, and the pure effects
  (collecting a power-up, effect expiry, firing).
- `TankStep`: `updateTank` for a human-controlled tank (keyboard mode).
- `AI`: `predictOpponentPosition`, `findIncomingBullet`,
  `findClosestPowerUp`, `findCover` and `updateAITank`.
- `Bullets`: `updateBullets` and `checkBulletWallAndBarrierCollision`.
- `PowerUps`: the spawn position search and `checkPowerUpCollisions` /
  `collectPowerUp`.
- `Arena`: the class `Game` holding the global game state. Its methods are
  `init`, `startGame`, `resetRound`, `update`, `handleHit`, `checkWin`,
  `spawnPowerUp`, `updatePowerUps` and `checkTankCollisions`. Its invariant
  `Valid()` says:
  - the barriers are the current layout and the grid is built from them;
  - the winner is the verdict of `checkWin` and the game is over exactly
    when there is one;
  - at most two power-ups are on the field;
  - no bullet in flight has bounced twice, and every trail holds at most
    ten points;
  - no tank holds more than one power-up effect.

Tanks, bullets and power-ups are values. The game object updates its fields
(`p1`, `p2`, the bullet and power-up lists, the barriers, the grid, the
layout index, the state and the winner) in place. A bullet's owner is the
player it belongs to, not a reference to the tank object. `Date.now()` and
`Math.random()` are parameters (`now`, `rolls`, `typeRoll`, `draws`).

Behaviours of `index.tsx` that the model keeps:
- On a re-plan, when the AI is exposed and no cover spot qualifies, the code
  takes the nearest power-up or the opponent as the target
  (`index.tsx:947-953`). It does not keep the previous target.
- The cover spot is not checked for reachability (`index.tsx:841-886`).
- Angle differences are wrapped into the closed range [-π, π]; both ends can
  occur (`index.tsx:359-360`).
- The AI's decision timer is in milliseconds and is decremented by 16 on
  each tick, so the re-plan happens every 1000-1500 ms of simulated time.

## Model

| member | source | states |
|---|---|---|
| Common.Clamp | index.tsx:401-402 | the clamped value lies in [lo, hi] when that range is non-empty; a value already inside is returned unchanged; a value below or above goes to the nearer bound |
| Geometry.Grow | index.tsx:589-593 | a point is inside the grown rectangle exactly when it passes the strict test with the padding on all four sides |
| Geometry.IsColliding | index.tsx:527-529 | an object collides with a tank exactly when the distance between their centres is strictly below half the tank width plus the object's radius; objects that only touch do not collide |
| Geometry.CollidingWithinReach | index.tsx:527-529 | when hypot gives the Euclidean length of the centre difference, two objects collide exactly when the squared distance between their centres is below the square of half the tank width plus the object's radius |
| Geometry.IsRectColliding | index.tsx:531-541 | a centred rectangle overlaps a barrier, with open edges, exactly when its centre lies strictly inside the barrier grown by half its width on each side and by half its height above and below |
| Geometry.TankHitsBarriers | index.tsx:543-550 | a tank hits the barriers exactly when its centre lies strictly inside some barrier grown by half a tank width; with no barriers it never does |
| Geometry.Sample | index.tsx:829-832 | sample 0 is the first point and sample `steps` is the second |
| Geometry.LineOfSightClear | index.tsx:822-839 | only the interior samples 1 to steps-1 are tested, so a sight line shorter than two sample steps is always clear; with no barriers every sight line is clear |
| Angles.Wrap | index.tsx:359-360 | the wrapped angle lies in [-π, π], and an angle already in that range is unchanged |
| Angles.WrapIsWholeTurns | index.tsx:359-360 | wrapping subtracts a whole number of full turns (2π) |
| Angles.WrapAngle | index.tsx:794-796 | the two while loops terminate with the wrapped angle, which lies in [-π, π] |
| Angles.TurnStep | index.tsx:361 | the turn is at most TANK_TURN_SPEED and at most the difference, has the difference's sign, equals the difference when that is small enough, and never overshoots |
| NavGrid.WallWhereTankBlocked | index.tsx:586-595 | a grid cell is a wall exactly when a tank parked on its centre would overlap a barrier |
| NavGrid.CreateNavGrid | index.tsx:577-605 | the grid has floor(width/30) columns and floor(height/30) rows, and a cell is a wall exactly when its centre lies strictly inside a barrier grown by half a tank width; with no barriers, no cell is a wall |
| SearchState.RemoveAt | index.tsx:688 | splicing one cell out of the open list leaves the others, in order, and keeps the list free of duplicates |
| Pathfinder.VisitNeighbours | index.tsx:640-651 | the queue only grows at its end, every in-bounds neighbour of the current cell is marked visited, and every newly visited cell is queued |
| Pathfinder.ClosedSetHoldsAll | index.tsx:633-653 | a set that holds the root and is closed under in-bounds neighbours holds every cell of the grid |
| Pathfinder.FindClosestValidNode | index.tsx:627-654 | a free root is returned as it is; any cell returned is free and no free cell of the grid is fewer 8-neighbour moves from the root; nothing is returned exactly when every cell of the grid is a wall |
| Pathfinder.Expand | index.tsx:633-652 | one round of the breadth-first loop on a wall keeps the search layered: queued cells are in nondecreasing order of moves from the root, every cell nearer than the head has been expanded and every cell as near has been seen |
| Pathfinder.LayeredStep | index.tsx:633-652 | expanding the head of a layered queue adds only cells one move farther than the head, so the queue stays layered |
| Pathfinder.LowestF | index.tsx:666-671 | the chosen open cell has the least f, and it is the first cell with that least f |
| Pathfinder.Admissible | index.tsx:693-711 | a neighbour is expanded exactly when it is in bounds, free, not closed, and a diagonal step does not cut a wall corner |
| Pathfinder.Update | index.tsx:713-728 | a neighbour that is opened or re-parented keeps the search invariant: every open and closed cell other than the start has a closed parent one legal step away, and parent chains lead back to the start |
| Pathfinder.ExpandNeighbours | index.tsx:691-731 | after the neighbour loops every legal step from the current cell leads to a closed or open cell, and the invariant holds |
| Pathfinder.CloseNode | index.tsx:688-689 | moving the chosen cell from the open list to the closed set keeps the invariant |
| Pathfinder.Reconstruct | index.tsx:675-686 | following the parents from the goal gives a legal path of at least two cells from the start to the goal |
| Pathfinder.NoPathOut | index.tsx:665-732 | when the open set is exhausted without reaching the goal, no legal path connects the start to the goal |
| Pathfinder.AStar | index.tsx:662-732 | a returned path is legal and runs from the start to the goal; the result is empty exactly when no legal path exists |
| Pathfinder.Centres | index.tsx:679-682 | each waypoint is the centre of its cell |
| Pathfinder.FindPath | index.tsx:607-733 | an endpoint outside the grid, an all-wall grid, or a free start cell equal to the end cell give the empty path; otherwise the start and end cells are replaced by nearest free cells (themselves when free), the path is empty when those coincide, and otherwise it is the cell centres of a legal path joining them, empty exactly when no such path exists |
| Pathfinder.SmoothPath | index.tsx:735-753 | paths of up to two points are returned unchanged; longer ones become the subsequence that keeps the first and last points and each point just before a blocked sight line, so a smoothed path has at least two points |
| Pathfinder.SmoothedIsShorter | index.tsx:735-753 | smoothing never lengthens the path |
| Pathfinder.SmoothedSegments | index.tsx:743-748 | consecutive kept points are adjacent in the original path or see each other |
| Pathfinder.SmoothedAllClear | index.tsx:735-753 | when the first point sees every later point, the smoothed path is just the two endpoints |
| Pathfinder.InnerPointBlocked | index.tsx:743-748 | an intermediate point is kept only if some later point is hidden from the first |
| Entities.NewTank | index.tsx:135-155 | a new tank has score 0, no effect, no shield, no piercing shot, no path and no evasion |
| Entities.Collect | index.tsx:320-334 | collecting clears the previous effect, shield and piercing flag; a shield or piercing shot becomes the standing flag; a speed boost or rapid fire becomes a timed effect ending 10000 ms from now; nothing else changes |
| Entities.CollectOverrides | index.tsx:320-334 | a second pickup wipes out the first completely |
| Entities.ExpireEffect | index.tsx:338-340 | the timed effect is dropped exactly when now is past its end time; nothing else changes |
| Entities.Speed | index.tsx:346 | the speed is 2, or 3 under a speed boost |
| Entities.Cooldown | index.tsx:408 | the cooldown is FIRE_COOLDOWN, 600 ms, or four tenths of it, 240 ms, under rapid fire |
| Entities.FireShot | index.tsx:419-430 | firing stamps the shot time, sets recoil 10 and clears the piercing flag; the bullet starts at the muzzle with the tank's heading and owner, no bounces, an empty trail and the tank's pending piercing flag |
| Entities.PiercingIsSingleUse | index.tsx:419-430 | a second shot is never piercing, and a tank that just fired is not cooled down |
| Entities.Young | index.tsx:302-305 | the kept power-ups are exactly those younger than 8000 ms |
| Entities.YoungAppend | index.tsx:302-305 | filtering distributes over concatenation |
| Entities.YoungIdempotent | index.tsx:302-305 | filtering twice at the same time changes nothing |
| Entities.PickType | index.tsx:281-282 | the four power-up types each get a quarter of the random range, in declaration order |
| TankStep.KeyTurn | index.tsx:377-383 | the key turn is at most TANK_TURN_SPEED; it turns left exactly when only left is held and right exactly when only right is held |
| TankStep.MoveSpeed | index.tsx:385-392 | the tank moves exactly when up or down is held; forward at full speed when up is held, else backward at 0.7 of the speed |
| TankStep.MoveKeepsClear | index.tsx:394-400 | each axis either moves by its step or reverts, and a tank clear of barriers stays clear |
| TankStep.MoveUnobstructed | index.tsx:394-400 | with no barriers, both axes move fully |
| TankStep.ClampToArena | index.tsx:401-402 | the clamped position is inside the arena when the arena is at least a tank wide and high; a position inside is unchanged |
| TankStep.ClampIdempotent | index.tsx:401-402 | clamping twice is clamping once |
| TankStep.MoveAxes | index.tsx:396-399 | the method's two reverting moves give the axis-separated move |
| TankStep.CountDown | index.tsx:337-340 | the recoil is decremented while positive and an ended effect is cleared |
| TankStep.Steer | index.tsx:377-392 | the new heading and the move speed follow the keys |
| TankStep.MoveTank | index.tsx:336-406 | the tank after the count-down, turning, moving, clamping and velocity update |
| TankStep.UpdateTank | index.tsx:336-417 | the tank fires exactly when fire is held and the (effect-dependent) cooldown has passed; the position is the moved and clamped one, inside the arena; the velocity is the position change; the score is kept and the effects stay exclusive |
| AI.FirstMinIs | index.tsx:809-820 | the scan with a strict `<` picks the first entry with the least key |
| AI.FirstMinUnique | index.tsx:809-820 | there is one such first least entry |
| AI.FindClosestPowerUp | index.tsx:809-820 | the loop returns the first nearest power-up |
| AI.ClosestIsNearest | index.tsx:809-820 | there is no power-up exactly when the list is empty; the one found is on the field and no other is nearer |
| AI.AssessBullet | index.tsx:785-805 | a bullet is a threat exactly when it is not the AI's own, is within 0.4 of the width and heads at the AI within 0.5 rad; its key is the time to impact |
| AI.FindIncomingBullet | index.tsx:780-807 | the loop returns the first threat with the least time to impact |
| AI.ThreatIsFirstToArrive | index.tsx:780-807 | there is no threat exactly when no bullet qualifies; the one found is in flight, not the AI's own, and no qualifying bullet arrives sooner |
| AI.InsideABarrier | index.tsx:866-874 | the inner loop finds exactly whether the spot is inside some barrier |
| AI.CheckCover | index.tsx:858-876 | a spot is good cover exactly when it is in bounds, outside every barrier and hidden from the opponent |
| AI.AssessBarrier | index.tsx:845-876 | the spot behind one barrier and its distance key, or none when the barrier's centre is at the opponent or the spot is not good cover |
| AI.FindCover | index.tsx:841-886 | the loop returns the first nearest good cover spot |
| AI.NoCoverWhenNoneUsable | index.tsx:841-886 | there is no cover exactly when no barrier yields a good spot |
| AI.CoverIsNearest | index.tsx:841-886 | the spot found is good cover and no other good spot is nearer to the AI |
| AI.PredictOpponent | index.tsx:756-778 | a near or standing opponent is aimed at directly; otherwise the prediction is clamped into the arena |
| AI.Arm | index.tsx:897-902 | evasion starts only when idle, with a threat and no shield: timer 15, heading a quarter turn off the bullet's, to the side the random roll picks |
| AI.Tick | index.tsx:904-907 | a running evasion counts down one tick and stops when its timer reaches zero |
| AI.EvasionRun | index.tsx:897-907 | an evasion lasts exactly 15 ticks once started |
| AI.TargetChoice | index.tsx:940-952 | an exposed unshielded AI with a cover spot targets it; otherwise the target is the opponent or a power-up on the field; with no power-ups it is the opponent |
| AI.RunTimer | index.tsx:889 | each tick takes 16 off the decision timer |
| AI.ReplanCadence | index.tsx:889-938 | after a re-plan sets the timer to 1000 + roll·500, no re-plan happens during the next 62 ticks, and one is due by the 94th |
| AI.ChooseTarget | index.tsx:940-952 | the method computes the target of the re-plan |
| AI.PlanPath | index.tsx:954-957 | the waypoints are the cell centres of the grid path findPath gives from the AI's position to the target, smoothed by the line of sight: the grid path joins nearest free stand-ins for the AI's cell and the target's cell (the cells themselves when free), is empty when the stand-ins coincide, and is empty otherwise exactly when no legal path joins them |
| AI.Replan | index.tsx:937-958 | the re-plan sets the timer from the roll, the target to the chosen one and the path to the smoothed grid path from the AI's position to that target, with index 0, and changes nothing else |
| AI.Retarget | index.tsx:937-953 | the first half of a re-plan resets the timer from the roll, sets the target to the chosen one and the waypoint index to 0, and changes nothing else |
| AI.Bearing | index.tsx:977-980 | the wrapped bearing to a point lies in [-π, π] |
| AI.Follow | index.tsx:964-993 | the waypoint index advances exactly when a waypoint remains and lies within 45 px, and then by one; the AI moves exactly when a waypoint remains after that and is less than a quarter turn off; the turn is the clamped step toward that waypoint, none when the path just ran out, or toward the opponent when no waypoint was left |
| AI.FollowPath | index.tsx:964-993 | the movement block computes exactly the index, turn and moving flag of AI.Follow |
| AI.Head | index.tsx:964-993 | the steering stage sets the waypoint index to AI.Follow's and adds AI.Follow's turn to the heading, and reports AI.Follow's moving flag |
| AI.Shoot | index.tsx:995-1007 | the firing stage fires exactly when the error between the new heading and the opponent position predicted from where the tank stands is within 0.2 rad, the sight line is clear and the cooldown has passed; the bullet and the tank's new firing state are those of the fire function |
| AI.FireIfReady | index.tsx:1001-1007 | the AI fires exactly when the aim error is within tolerance, the sight line is clear and the cooldown has passed |
| AI.PursuedSteps | index.tsx:967-993 | in any pursuing tick the waypoint index advances at most once and only within 45 px of the waypoint; a tank with no waypoint left turns toward the opponent and stands; a tank that moved had a waypoint less than a quarter turn off |
| AI.Evade | index.tsx:904-931 | an evading tick moves along the dodge heading (each axis undone on a barrier overlap) and is clamped into the arena; it turns by the clamped step toward the opponent position predicted from the moved spot; it fires exactly when that aim error is below 0.15 rad, the sight line is clear and the cooldown has passed, the bullet leaving from the moved spot along the new heading; it keeps the plan, the effect and the shield |
| AI.Pursue | index.tsx:964-1020 | a pursuing tick keeps the plan, effect, shield, evasion and score; it sets the waypoint index and heading as AI.Follow says, fires exactly when the predicted aim from where it stands is within 0.2 rad, the sight line is clear and the cooldown has passed, with the bullet leaving along the new heading, and, when it moves, steps along the new heading at its current speed (each axis undone on a barrier overlap) before being clamped into the arena |
| AI.Drive | index.tsx:1009-1019 | a moving tank steps along its heading at its current speed, each axis undone on a barrier overlap, and is then clamped; a tank that does not move is only clamped; the result is inside the arena |
| AI.Prepared | index.tsx:889-893 | the AI's tick starts by taking 16 ms off the decision timer, counting the recoil down and expiring the effect |
| AI.UpdateAITank | index.tsx:888-1020 | the evasion state is armed and ticked as the threat dictates; an evading tick keeps the plan and moves, turns and fires as AI.Evade says; otherwise it re-plans exactly when the timer has run out, to a path that is the smoothed grid path to the chosen target, then moves, turns and fires as AI.Pursue says from the prepared tank with its plan; every shot respects the cooldown; the tank ends inside the arena and keeps its score |
| AI.EvadeTick | index.tsx:904-931 | the evading branch of a tick keeps the plan with the timer one tick lower, and moves, turns and fires as AI.Evade says |
| AI.PursueTick | index.tsx:937-1020 | the pursuing branch of a tick re-plans exactly when the timer has run out, to a path that is the smoothed grid path to the chosen target, and then moves, turns and fires as AI.Pursue says |
| AI.Advance | index.tsx:937-1020 | the non-evading part of the tick: re-plan when the timer has run out, to a path that is the smoothed grid path from the AI to the chosen target; else keep the plan; then index, heading, position and bullet are those of a pursuing tick from the tank with that plan, so the tank moves only towards a waypoint of its path less than a quarter turn off |
| Bullets.PushTrail | index.tsx:436-437 | the trail gains the current position at its end and keeps only the last ten points |
| Bullets.Move | index.tsx:436-440 | the bullet's trail is pushed and only its position moves |
| Bullets.WallBounce | index.tsx:461-470 | a bullet beyond a side or top/bottom wall is reflected on that axis and clamped back into bounds; otherwise it is unchanged |
| Bullets.FirstBarrierFrom | index.tsx:474-476 | the first barrier containing the point, or none when no barrier does |
| Bullets.BarrierBounce | index.tsx:486-493 | a barrier bounce reflects the heading and steps x back; y stays |
| Bullets.BounceRemovesOnSecondBounce | index.tsx:498-503 | a bullet is removed exactly when it bounces after a first bounce; otherwise it counts the bounce and stays live |
| Bullets.WallBounceIgnoresBarriers | index.tsx:473 | barriers are not checked once a wall bounce happened; a corner hit turns the heading by π |
| Bullets.PiercingPassesOnce | index.tsx:478-482 | a piercing bullet in a barrier loses its flag and neither bounces nor is removed |
| Bullets.CheckBulletWallAndBarrierCollision | index.tsx:457-504 | the method's loop computes the bounce function |
| Bullets.Step | index.tsx:434-453 | a bullet is removed exactly when the bounce check removes it; a kept bullet hits exactly when it touches a tank that is not its owner's; player 1's tank is tested first, so a bullet touching it scores for player 2 |
| Bullets.LastHit | index.tsx:432-455 | the highest index whose bullet hits; no bullet after it hits |
| Bullets.StoppedAtLastHit | index.tsx:432-455 | a backward sweep that stops at a hit stops at the last hitting bullet of the list |
| Bullets.StepKeepsLive | index.tsx:434-453 | a bullet that survives its step is still live |
| Bullets.SurvivorsCount | index.tsx:441-444 | removal never adds bullets; with no removal every bullet stays |
| Bullets.TickKeepsLive | index.tsx:432-455 | a full pass over live bullets leaves only live bullets |
| Bullets.SweepKeepsLive | index.tsx:432-455 | whatever the sweep leaves is live, and a reported hit names a bullet of it: the last hitting bullet of the list |
| Bullets.StepBullet | index.tsx:434-453 | the method computes one bullet's fate |
| Bullets.SweepOne | index.tsx:433-453 | one iteration of the backward sweep keeps the loop invariant, or stops at the hit |
| Bullets.AdvanceBullets | index.tsx:432-455 | without a hit, the bullets are the survivors of the full pass; with one, the sweep stopped at the highest-index hitting bullet, with the ones above it already stepped and those below untouched |
| PowerUps.Candidate | index.tsx:286-287 | a draw in [0, 1] gives a point at least the power-up radius inside the arena |
| PowerUps.FirstClear | index.tsx:284-297 | the index of the first draw clear of every grown barrier; all earlier ones are blocked |
| PowerUps.DrawSpot | index.tsx:284-297 | the rejection loop returns the first clear draw's point, which is outside every grown barrier |
| PowerUps.Unclaimed | index.tsx:307-318 | the power-ups left are exactly those that neither tank touches |
| PowerUps.Collected | index.tsx:307-334 | collecting changes only the effect, shield and piercing flag, and keeps them exclusive |
| PowerUps.FirstClaimed | index.tsx:308-317 | the lowest-index power-up this player claims; one touching both tanks goes to player 1 |
| PowerUps.FirstPickupWins | index.tsx:307-334 | since the loop runs backwards and each pickup overrides the last, a tank ends with the effect of the lowest-index power-up it touches |
| PowerUps.PickOne | index.tsx:309-317 | one iteration of the backward loop keeps the loop invariant |
| PowerUps.Pickups | index.tsx:307-318 | the loop leaves the unclaimed power-ups and gives each tank its collected effect |
| Arena.Winner | index.tsx:566-574 | player 1 wins at three points, player 2 wins at three points when player 1 has fewer, otherwise nobody |
| Arena.Placed | index.tsx:221-239 | a placed tank has no effect, shield or piercing shot and keeps its score |
| Arena.PushApart | index.tsx:552-564 | tanks at least a tank width apart are not moved; pushing them apart keeps their midpoint |
| Arena.SpliceKeepsLive | index.tsx:510 | removing one bullet keeps the rest live |
| Arena.Game.constructor | index.tsx:248-255 | init sizes the game, builds layout 0 with its grid, makes two new tanks and waits in the menu |
| Arena.Game.BuildLayout | index.tsx:200-203 | the layout's barriers become current and the grid is rebuilt from them |
| Arena.Game.CheckWin | index.tsx:566-574 | the game ends with the winner exactly when a score reached three; otherwise nothing changes |
| Arena.Game.ResetRound | index.tsx:221-246 | tanks go to their starting spots and headings with their effects cleared, player 2's path is dropped, bullets and power-ups are cleared, scores are kept |
| Arena.Game.StartGame | index.tsx:208-218 | scores reset, layout 0, a fresh round, no winner, playing |
| Arena.Game.HandleHit | index.tsx:506-525 | a shield absorbs the hit: the victim loses only its shield, the bullet is spliced out and nothing else changes, the spawn clock included; otherwise the scorer gains exactly one point, the layout advances cyclically, and the round resets unless the game is over, in which case only the bullet is spliced out |
| Arena.Game.ScorePoint | index.tsx:515-524 | the scoring branch: one point to the scorer, next layout, check the win, reset unless over; when the game is over the tanks, power-ups and spawn clock are kept |
| Arena.Game.DropShield | index.tsx:508-512 | only the hit tank's shield is cleared |
| Arena.Game.AddPoint | index.tsx:515 | only the scorer's score goes up by one |
| Arena.Game.SpawnPowerUp | index.tsx:276-300 | nothing happens before 10 s or with two power-ups on the field; otherwise a power-up of the drawn type is appended at the first clear draw and the spawn time is stamped |
| Arena.Game.UpdatePowerUps | index.tsx:302-305 | the expired power-ups are removed |
| Arena.Game.CheckPowerUpCollisions | index.tsx:307-318 | the touched power-ups are removed and each tank gets its pickup |
| Arena.Game.CheckTankCollisions | index.tsx:552-564 | only the two positions change, by the push-apart |
| Arena.Game.UpdateBullets | index.tsx:432-455 | without a hit the bullets are the survivors of the pass and nothing else changes; with a hit, the last hitting bullet of the list is handed to handleHit, with the bullets after it stepped and those before it untouched; the invariant holds and at most one point is scored |
| Arena.Game.AddShot | index.tsx:424-427 | a fired bullet is appended at the end, and the bullets stay live |
| Arena.Game.StepPowerUps | index.tsx:263-264 | spawning and expiry keep the invariant |
| Arena.Game.StepPlayer1 | index.tsx:265 | player 1 becomes updateTank's moved tank; a bullet is appended exactly when fire is held and the cooldown has passed, and then the tank and the bullet are those of firing from the moved tank; the invariant holds |
| Arena.Game.Player2Turn | index.tsx:266-270 | in a two-player game, player 2 is the keyboard-moved tank, firing exactly when fire is held and the cooldown has passed; in a one-player game, the AI's evasion is armed and ticked; the score is kept and any shot is a fresh bullet of player 2 |
| Arena.Game.StepPlayer2 | index.tsx:266-270 | in a two-player game, as for player 1; in a one-player game, the AI's evasion is armed and ticked; at most one bullet of player 2 is appended and the invariant holds |
| Arena.Game.StepTanks | index.tsx:265-270 | both tank steps keep the invariant and the scores |
| Arena.Game.Resolve | index.tsx:271-273 | the bullet step and the settling keep the invariant, never lower a score and score at most one point |
| Arena.Game.Settle | index.tsx:272-273 | tank separation and pickups keep the invariant and the scores |
| Arena.Game.Update | index.tsx:261-274 | outside PLAYING nothing changes; a tick keeps the invariant, never lowers a score, and scores at most one point |

## Left out

- Rendering, audio, menus, touch and keyboard input plumbing: they are not part of the simulation. The keys are the tank's `keys` field. The touch joystick branch of `updateTank` (`index.tsx:348-375`) is not modelled.
- The barrier layouts (`index.tsx:157-199`) are plain geometry. The game takes its four layouts as a constructor parameter.
- Resizing: the canvas size is fixed at construction and must be non-empty, because the AI divides by the width. The sizes derived from it follow `resizeCanvas` (`index.tsx:54-60`).
- Floating point: reals are exact, and `Math.cos`, `sin`, `atan2` and `hypot` are abstract functions (`Platform`). No property depends on their values.
- `Date.now()` and `Math.random()` are parameters. The spawn position loop of `spawnPowerUp` draws from a finite sequence of random pairs, and the caller must supply a clear one. The source's loop can run forever when every position is blocked; the model does not model that.
- Pathfinder.AStar: does not state that the path found is a shortest one. Only soundness (a legal path from start to goal) and completeness (empty exactly when none exists) are proved. The f, g and h scores are computed as in the source.
- Pathfinder.FindClosestValidNode: among free cells equally few moves from the root, does not state which one comes first in breadth-first order (the order of the neighbour offsets). It states that the cell is free and nearest in moves, that a free root is kept, and that nothing is found exactly when every cell is a wall.
- Arena.Game.Update: states the invariant, the score bounds and that nothing changes outside PLAYING, not the complete new state. The stage methods and the operations they call each state their own effect.
- Arena.Game.StepPowerUps: states only the invariant; SpawnPowerUp and UpdatePowerUps state the effect.
- Arena.Game.StepTanks: states only the invariant and the scores; StepPlayer1 and StepPlayer2 state the effect.
- Arena.Game.Settle: states only the invariant and the scores; CheckTankCollisions and CheckPowerUpCollisions state the effect.
- Arena.Game.StepPlayer2: in a one-player game, states only the AI's evasion, its score, and the owner and time of its shot, not the rest of the AI's new tank; AI.UpdateAITank states its plan, position, heading and bullet.
- Arena.Game.Player2Turn: in a one-player game, states only the AI's evasion, its score, its exclusive effects and the freshness of its shot; AI.UpdateAITank states its plan, position, heading and bullet.
- Arena.Game.Resolve: states only the invariant and the score bounds; UpdateBullets and Settle state the effect.
- The relation between the layout index and the total score is not stated as an invariant.
- The debug overlay (`DEBUG_AI_PATH`) and the joystick and fire-button sizes are left out, because they are only used for drawing and input.
