# NPC task rules, game-area bookkeeping and two input state machines, in Dafny

This project models the decision rules of a small 2D action game's
non-player characters and two of its input-driven state machines, and
proves what the code promises about them:

- **Task composition** (`Tasks`): a multi-task swaps its current sub-task,
  stopping the old one before starting the new one.
- **Alert-aware chasing** (`AlertableChase`): a chase task whose priority
  is forced to 10 while the latest signal that reached one of its
  listeners was "alert". All of a task's listeners share one flag, and a
  signal sent before the first poll has registered a listener changes
  nothing. Every priority poll registers the two listeners on each
  "AlertCaller" again, with no deduplication.
- **Zig-zag pursuit** (`ZigChase`): a step rule over the clock in
  milliseconds, the distance to the target and the last zig side. It
  either does nothing, heads straight for the target at speed 1.5, or
  zigs 40 degrees to alternating sides at speed 2.5.
- **Decoy summoning** (`SpawnDecoys`): a boss spawns four decoys on its
  diagonals when its health is low. A counter shared by every instance
  allows this at most twice. Java's `static` field is one `SpawnCounter`
  object here, and the same object must be passed to every task's
  constructor for the bound to cover all tasks together.
- **Area bookkeeping** (`Areas`): the enemy and boss counters, the
  append-only list of spawned entities, where a spawned entity is placed,
  the y-flip of map objects, and the portal that appears when a level's
  last boss dies.
- **Dialogue text box** (`TextBoxUi`): walks through a dialogue and
  reveals each message one character at a time. One key press completes
  the line and a second press moves on.
- **Keyboard movement** (`PlayerInput`): four direction flags, a dash
  flag and a speed multiplier. They decide which "walk", "walkStop" and
  "dash" events are emitted.

Objects whose fields the game updates in place are classes. Their
methods state the full new state, usually by tying it to a pure function
of the old state. Lemmas about those functions prove the properties that
span several calls: the zig sides alternate, the spawn counter never
passes 2, the text box's index stays within the dialogue, the last alert
signal wins, and each poll adds 2·k listeners.

Modelling choices:
- Java `null` is `Option.None`, except for GameArea's map, which the
  model's constructor always receives (see "## Left out").
- A Java exception (a failed map lookup, an out-of-range substring, a
  loop over a null list) is a `thrown` result. The state is left as it
  was when the exception was thrown.
- Vectors have exact `real` components. Time is integer milliseconds.
- The 20 ms text reveal timer becomes an explicit step
  (`TextBox.SetSubMessage`). The 150 ms dash-end timer becomes an
  explicit event (`DashEnd`).
- Created entities are fresh `Entity` objects. Emitted events are a
  recorded trace (`events`).
- An entity's centre is its position plus a constant half scale.
  Engine code the model relies on (`Entity`, `DefaultTask`,
  `MovementTask`, the terrain) is not part of this model.

The model follows the code as written:
- Listeners are re-registered on every poll. The code's own todo at
  AlertableChaseTask.java:40 says they should not be re-added.
- The emergency summon can never fire. `SpawnDecoysTask.mapBound` asks
  for `x < 0 && x > 30` at once, so it never holds (`SpawnDecoys.MapBound`
  proves `!r`), and the "no enemies left" clause of `canSpawn` never
  enables spawning.
- The half-second zig test is strict (`> 500` ms).
- A task's initial status is `Inactive`.

## Model

| member | source | states |
|---|---|---|
| Tasks.SwapCalls | source/core/src/main/com/deco2800/game/ai/tasks/DefaultMultiTask.java:10-16 | one swap makes one call, or two when a task was held. A held task is stopped first. The new task is started exactly once, last. No other task is called |
| Tasks.DefaultMultiTask.constructor | source/core/src/main/com/deco2800/game/ai/tasks/DefaultMultiTask.java:8 | there is no current task at first and no calls have been made |
| Tasks.DefaultMultiTask.SwapTask | source/core/src/main/com/deco2800/game/ai/tasks/DefaultMultiTask.java:10-16 | afterwards the current task is the new one and it is Active. A different old task is left Inactive. The calls made are SwapCalls(old current, new), so nothing is stopped when there was no current task, and a swap to the same task stops it and then restarts it. Only the two tasks may change (modifies) |
| AlertableChase.RegistrationsFromAlertCallers | source/core/src/main/com/deco2800/game/components/tasks/AlertableChaseTask.java:37-44 | every listener added is on an entity whose type tag is non-null and equals "AlertCaller", and every such entity gets both the alert and the unAlert listener |
| AlertableChase.RegistrationsCount | source/core/src/main/com/deco2800/game/components/tasks/AlertableChaseTask.java:40-42 | one poll adds exactly 2·k listeners, where k is the number of alert callers |
| AlertableChase.RepeatedRegistrationsCount | source/core/src/main/com/deco2800/game/components/tasks/AlertableChaseTask.java:36-44 | with no deduplication, n polls over the same entities add n·2·k listeners |
| AlertableChase.LastSignalWins | source/core/src/main/com/deco2800/game/components/tasks/AlertableChaseTask.java:24-29 | after any non-empty sequence of signals, the flag is true exactly when the last signal was "alert" |
| AlertableChase.AlertableChaseTask.constructor | source/core/src/main/com/deco2800/game/components/tasks/AlertableChaseTask.java:13 | alerted is initially false and no listener is registered yet |
| AlertableChase.AlertableChaseTask.Alerted | source/core/src/main/com/deco2800/game/components/tasks/AlertableChaseTask.java:24-26 | the alert handler sets the flag, as Handle(flag, alert) |
| AlertableChase.AlertableChaseTask.UnAlerted | source/core/src/main/com/deco2800/game/components/tasks/AlertableChaseTask.java:27-29 | the unAlert handler clears the flag, as Handle(flag, unAlert) |
| AlertableChase.AlertableChaseTask.GetPriority | source/core/src/main/com/deco2800/game/components/tasks/AlertableChaseTask.java:36-49 | appends Registrations(entities) to the listeners. Returns 10 if alerted, whatever the base priority is, and exactly the inherited chase priority otherwise |
| AlertableChase.AlertableChaseTask.Trigger | source/core/src/main/com/deco2800/game/components/tasks/AlertableChaseTask.java:41-42 | when an entity triggers a signal, the flag becomes Handle(old flag, signal) if this task has a listener for it on that entity, and is otherwise unchanged. Duplicate listeners make no difference |
| ZigChase.Decide | source/core/src/main/com/deco2800/game/components/tasks/ZigChaseTask.java:35-49 | an update does nothing exactly when at most 500 ms have passed and the distance is at least 0.3·maxChaseDistance. It goes direct exactly when the distance is below that. Otherwise it zigs to side −1 if the last zig went left, else +1 |
| ZigChase.Step | source/core/src/main/com/deco2800/game/components/tasks/ZigChaseTask.java:34-57 | an idle update keeps the timestamp and the side. Any recompute sets the timestamp to the clock's second reading (`later`), taken after the test read `now`. Only a zig flips zigLeft |
| ZigChase.ZigLeftRight | source/core/src/main/com/deco2800/game/components/tasks/ZigChaseTask.java:65-72 | the zig target's offset from the owner's centre is the owner-to-target offset rotated by −direction·40°. No entity is modified |
| ZigChase.ZigSidesAlternate | source/core/src/main/com/deco2800/game/components/tasks/ZigChaseTask.java:42-48 | over any run of updates, the zig sides alternate in sign, starting from the side zigLeft selects, whatever idle and direct updates come in between |
| ZigChase.ZigChaseTask.constructor | source/core/src/main/com/deco2800/game/components/tasks/ZigChaseTask.java:12-14 | the timestamp starts at the construction time and zigLeft starts false |
| ZigChase.ZigChaseTask.Update | source/core/src/main/com/deco2800/game/components/tasks/ZigChaseTask.java:34-57 | the clock is read twice, at the test (`now`) and when the timestamp is stored (`later`). The new (start, zigLeft) is Step of the old. Idle leaves the movement task untouched. Direct sets the target's position and speed (1.5, 1.5). A zig sets speed (2.5, 2.5) and the rotated target. Any recompute updates the movement task once and leaves it Active |
| SpawnDecoys.RatioBelowExact | source/core/src/main/com/deco2800/game/components/tasks/SpawnDecoysTask.java:113-115 | for a positive maximum, the integer cross-multiplication is the same comparison as health / maxHealth < num / den |
| SpawnDecoys.MapBound | source/core/src/main/com/deco2800/game/components/tasks/SpawnDecoysTask.java:99-105 | never true, because x < 0 and x > 30 cannot both hold |
| SpawnDecoys.CanSpawn | source/core/src/main/com/deco2800/game/components/tasks/SpawnDecoysTask.java:112-125 | spawning is allowed exactly when (ratio < 0.5 and counter < 1) or (ratio < 0.25 and counter < 2). The no-enemies clause is dead. An allowed spawn always has counter < 2 |
| SpawnDecoys.Priority | source/core/src/main/com/deco2800/game/components/tasks/SpawnDecoysTask.java:87-92 | the priority is 20 exactly when CanSpawn holds, and −1 otherwise |
| SpawnDecoys.DecoyOffset | source/core/src/main/com/deco2800/game/components/tasks/SpawnDecoysTask.java:63-76 | each decoy offset is a diagonal of unit components: (−1,1), (1,1), (−1,−1), (1,−1) for i mod 4 = 0..3 |
| SpawnDecoys.DecoyOffsetsDistinct | source/core/src/main/com/deco2800/game/components/tasks/SpawnDecoysTask.java:59-76 | the four decoys of one spawn get four different offsets |
| SpawnDecoys.CounterBounded | source/core/src/main/com/deco2800/game/components/tasks/SpawnDecoysTask.java:47-53 | over any sequence of updates, the shared counter never decreases and, starting from at most 2, never exceeds 2 |
| SpawnDecoys.AtMostTwoSpawns | source/core/src/main/com/deco2800/game/components/tasks/SpawnDecoysTask.java:121-124 | starting from 0, at most two spawns ever happen, however low health goes |
| SpawnDecoys.SpawnCounter.constructor | source/core/src/main/com/deco2800/game/components/tasks/SpawnDecoysTask.java:31 | the shared counter starts at 0 |
| SpawnDecoys.SpawnDecoysTask.constructor | source/core/src/main/com/deco2800/game/components/tasks/SpawnDecoysTask.java:38-41 | the task keeps the shared counter, the game area, its owner and the owner's movement component |
| SpawnDecoys.SpawnDecoysTask.GetPriority | source/core/src/main/com/deco2800/game/components/tasks/SpawnDecoysTask.java:87-92 | returns Priority for the owner's health, the area's enemy count, the owner's position and the shared counter |
| SpawnDecoys.SpawnDecoysTask.Spawn | source/core/src/main/com/deco2800/game/components/tasks/SpawnDecoysTask.java:58-79 | increases the enemy count by exactly 4. Appends exactly four fresh Loki decoys and keeps the earlier entries. The i-th decoy is centred at owner centre + DecoyOffset(i), so its own centre lies half a tile beyond that point |
| SpawnDecoys.SpawnDecoysTask.Update | source/core/src/main/com/deco2800/game/components/tasks/SpawnDecoysTask.java:47-53 | fires exactly when CanSpawn holds. Firing stops the owner moving, adds exactly 1 to the counter and raises the enemy count by 4. It keeps the earlier entities and appends four fresh Loki decoys, the i-th centred half a tile beyond the old owner centre + DecoyOffset(i). Otherwise counter, movement and area are unchanged. A counter at most 2 stays at most 2 |
| Areas.IntValue | source/core/src/main/com/deco2800/game/areas/GameArea.java:316-317 | Float.intValue truncates toward zero |
| Areas.TeleportTile | source/core/src/main/com/deco2800/game/areas/GameArea.java:195-248 | a portal tile exists exactly when the map has a teleport object and the height key the level reads. Level 9 reads the misspelled "n_tiles_heihgt" and uses y' = h − y. Levels 0–4 use y' = height − y − 2. x is the object's x, truncated |
| Areas.GameArea.constructor | source/core/src/main/com/deco2800/game/areas/GameArea.java:144-146 | both counters start at 0 and no entity has been spawned |
| Areas.GameArea.GetLevel | source/core/src/main/com/deco2800/game/areas/GameArea.java:158-160 | reports the level given at construction (0 for the base class, whose getLevel returns 0) |
| Areas.GameArea.SetMap | source/core/src/main/com/deco2800/game/areas/GameArea.java:162-164 | replaces the map |
| Areas.GameArea.IncNum | source/core/src/main/com/deco2800/game/areas/GameArea.java:169-171 | the enemy count rises by exactly 1 |
| Areas.GameArea.DecNum | source/core/src/main/com/deco2800/game/areas/GameArea.java:176-178 | the enemy count falls by exactly 1, with no lower bound |
| Areas.GameArea.GetNumEnemy | source/core/src/main/com/deco2800/game/areas/GameArea.java:258-260 | returns the current enemy count and changes nothing |
| Areas.GameArea.IncBossNum | source/core/src/main/com/deco2800/game/areas/GameArea.java:183-185 | the boss count rises by exactly 1 |
| Areas.GameArea.DecBossNum | source/core/src/main/com/deco2800/game/areas/GameArea.java:190-251 | the boss count falls by 1. A portal is spawned (one fresh entity appended, centred on TeleportTile) only when the new count is 0, the level is 9 or 0–4, and the map lookup succeeds. A failed lookup throws after the decrement and spawns nothing |
| Areas.GameArea.SpawnEntity | source/core/src/main/com/deco2800/game/areas/GameArea.java:277-280 | appends exactly the entity at the end and keeps the earlier entries |
| Areas.GameArea.SpawnEntityAt | source/core/src/main/com/deco2800/game/areas/GameArea.java:335-348 | x is adjusted only when centerX is set and y only when centerY is set, by half a tile less the entity's centre. A fresh entity centred on an axis has its centre half a tile from the given point on that axis. The entity is appended |
| Areas.GameArea.SpawnEntityAtTile | source/core/src/main/com/deco2800/game/areas/GameArea.java:290-304 | as SpawnEntityAt, at the terrain's world position for the tile |
| Areas.GameArea.SpawnObjects | source/core/src/main/com/deco2800/game/areas/GameArea.java:315-324 | one fresh entity per map object, appended in order, each at the world position of tile (x, n_tiles_height − y) and not centred. A missing height key throws at the first object, before anything is spawned |
| Areas.GameArea.SpawnHealthCrateObject | source/core/src/main/com/deco2800/game/areas/GameArea.java:310-325 | with no crate list nothing is spawned. Otherwise one health crate is spawned per crate on its flipped tile |
| Areas.GameArea.SpawnUncheckedList | source/core/src/main/com/deco2800/game/areas/GameArea.java:351-361 | a list without a null check throws when it is missing. Otherwise it spawns one entity per object, as SpawnObjects does |
| Areas.GameArea.SpawnHellWarriorObject | source/core/src/main/com/deco2800/game/areas/GameArea.java:350-362 | one hell viking per object on its flipped tile. A missing list throws |
| Areas.GameArea.SpawnAsgardWarriorObject | source/core/src/main/com/deco2800/game/areas/GameArea.java:364-376 | one Asgard viking per object on its flipped tile. A missing list throws |
| Areas.GameArea.SpawnOutdoorWarriorObject | source/core/src/main/com/deco2800/game/areas/GameArea.java:378-390 | one outdoor viking per object on its flipped tile. A missing list throws |
| Areas.GameArea.SpawnOutdoorArcherObject | source/core/src/main/com/deco2800/game/areas/GameArea.java:392-404 | one outdoor archer per object on its flipped tile. A missing list throws |
| Areas.GameArea.SpawnCheckedList | source/core/src/main/com/deco2800/game/areas/GameArea.java:407-419 | a null-checked list spawns nothing when missing. Otherwise it spawns one fresh entity per object, in order, on its flipped tile, and earlier runs placed in the list stay placed. It throws, spawning nothing, exactly when the list is non-empty and the height key is missing |
| Areas.GameArea.SpawnMovementCutscenes | source/core/src/main/com/deco2800/game/areas/GameArea.java:406-462 | spawns one fresh trigger per object and keeps the earlier entries. The left-move triggers come first, then right, down and up (CutsceneRuns), each on its object's y-flipped tile. It throws, with nothing spawned, exactly when the height key is missing and some list is non-empty |
| TextBoxUi.ApplyKeepsInv | source/core/src/main/com/deco2800/game/ui/textbox/TextBox.java:106-116 | every operation keeps 0 ≤ index ≤ the dialogue's length |
| TextBoxUi.RunKeepsInv | source/core/src/main/com/deco2800/game/ui/textbox/TextBox.java:106-116 | any sequence of operations keeps 0 ≤ index ≤ the dialogue's length |
| TextBoxUi.ReopenRestarts | source/core/src/main/com/deco2800/game/ui/textbox/TextBox.java:87-92 | closing and then opening shows message 0 again, with the index at 1 |
| TextBoxUi.NextAtEndCloses | source/core/src/main/com/deco2800/game/ui/textbox/TextBox.java:109-115 | advancing past the last message closes the box, clears the message and rewinds the index to 0 |
| TextBoxUi.RevealCompletes | source/core/src/main/com/deco2800/game/ui/textbox/TextBox.java:122-139 | once a message of length L ≥ 1 has started, L reveal steps show it in full and set skip |
| TextBoxUi.RevealFrom | source/core/src/main/com/deco2800/game/ui/textbox/TextBox.java:122-129 | from any reveal position inside a message, the remaining steps show the whole message and leave the dialogue position alone |
| TextBoxUi.TwoPressesAdvance | source/core/src/main/com/deco2800/game/ui/textbox/TextBox.java:146-152 | on a line still being revealed, two presses equal one advance: the first press only sets skip and the second moves on |
| TextBoxUi.TextBox.constructor | source/core/src/main/com/deco2800/game/ui/textbox/TextBox.java:44-48 | the debug command is registered and the opening dialogue is set. A non-empty dialogue leaves the box open, showing message 0 with index 1. An empty one leaves it closed |
| TextBoxUi.TextBox.SetOpen | source/core/src/main/com/deco2800/game/ui/textbox/TextBox.java:67-71 | opens the box, then advances |
| TextBoxUi.TextBox.ToggleIsOpen | source/core/src/main/com/deco2800/game/ui/textbox/TextBox.java:76-82 | closes an open box and opens a closed one |
| TextBoxUi.TextBox.SetClosed | source/core/src/main/com/deco2800/game/ui/textbox/TextBox.java:87-92 | isOpen is false, the message is "" and the index is 0. Nothing else changes |
| TextBoxUi.TextBox.HandleEscape | source/core/src/main/com/deco2800/game/ui/textbox/TextBox.java:97-100 | the same as SetClosed |
| TextBoxUi.TextBox.NextMessage | source/core/src/main/com/deco2800/game/ui/textbox/TextBox.java:106-116 | clears skip and the reveal index. Then it either shows dialogue[index] (first reveal step, index + 1) or closes the box when none remains |
| TextBoxUi.TextBox.SetSubMessage | source/core/src/main/com/deco2800/game/ui/textbox/TextBox.java:122-139 | when skipping or at the last character, the whole message shows, the reveal index becomes the length and skip is set. Otherwise an open box shows the prefix up to the reveal index and the index advances. A closed box is unchanged. A reveal index past the end of the message (reachable only for an empty message) throws and changes nothing |
| TextBoxUi.TextBox.SetSkip | source/core/src/main/com/deco2800/game/ui/textbox/TextBox.java:146-152 | with skip already set this advances to the next message. Otherwise it only sets skip |
| TextBoxUi.TextBox.AddCommand | source/core/src/main/com/deco2800/game/ui/textbox/TextBox.java:160-166 | always stores the command, replacing any entry under the same name |
| TextBoxUi.TextBox.SetDialogueTo | source/core/src/main/com/deco2800/game/ui/textbox/TextBox.java:173-178 | installs the dialogue, rewinds the index and the reveal, and opens |
| PlayerInput.Direction | source/core/src/main/com/deco2800/game/components/player/KeyboardPlayerInputComponent.java:169-178 | scales the direction by the multiplier, and also by the diagonal factor exactly when both components are non-zero. A positive multiplier keeps the signs of right − left and up − down |
| PlayerInput.WalkEvents | source/core/src/main/com/deco2800/game/components/player/KeyboardPlayerInputComponent.java:140-151 | emits nothing while dashing. Otherwise it emits exactly one event: "walkStop" exactly when up = down and right = left, and "walk" with the computed direction otherwise |
| PlayerInput.KeyboardPlayerInputComponent.constructor | source/core/src/main/com/deco2800/game/components/player/KeyboardPlayerInputComponent.java:18-45 | all flags start at 0, the multiplier at 1 and the direction at zero |
| PlayerInput.KeyboardPlayerInputComponent.CalculateDistance | source/core/src/main/com/deco2800/game/components/player/KeyboardPlayerInputComponent.java:169-178 | overwrites walkDirection with Direction(right − left, up − down, multiplier) |
| PlayerInput.KeyboardPlayerInputComponent.TriggerWalkEvent | source/core/src/main/com/deco2800/game/components/player/KeyboardPlayerInputComponent.java:140-151 | appends WalkEvents for the current flags. The direction changes only when "walk" is emitted |
| PlayerInput.KeyboardPlayerInputComponent.TriggerDashEvent | source/core/src/main/com/deco2800/game/components/player/KeyboardPlayerInputComponent.java:157-160 | emits "dash" with the direction scaled by 2.5 |
| PlayerInput.KeyboardPlayerInputComponent.KeyDown | source/core/src/main/com/deco2800/game/components/player/KeyboardPlayerInputComponent.java:58-99 | W/A/S/D set up/left/down/right to 1 and return true. SPACE emits "attack". Left SHIFT sets the multiplier to 1.4. CAPS LOCK sets dashing, sets the direction scaled by 2.5, emits "dash" and schedules the dash end, yet returns false. Other keys return false and change nothing. For W/A/S/D and SHIFT the direction becomes Direction(right − left, up − down, multiplier) exactly when "walk" is emitted, and is kept otherwise |
| PlayerInput.KeyboardPlayerInputComponent.KeyUp | source/core/src/main/com/deco2800/game/components/player/KeyboardPlayerInputComponent.java:108-133 | W/A/S/D set their flag to 0 and left SHIFT restores the multiplier to 1, each re-evaluating walking and returning true. The direction is recomputed exactly when "walk" is emitted. Other keys return false and change nothing |
| PlayerInput.KeyboardPlayerInputComponent.DashEnd | source/core/src/main/com/deco2800/game/components/player/KeyboardPlayerInputComponent.java:90-93 | the scheduled dash end resets the multiplier to 1 and dashing to 0, then re-evaluates walking. The direction becomes Direction(right − left, up − down, 1) exactly when "walk" is emitted |

## Left out

- ChaseTask, DefaultTask, MovementTask and the task runner are not part of this model.
  - The inherited chase priority is an input.
  - Starting a task makes it Active and stopping it makes it Inactive.
  - A movement task's update is only counted.
  - Priority selection and chase hysteresis are not modelled.
- ZigChaseTask.getDistanceToTarget: a Euclidean distance needs a square root, so the distance is an input of `Update`.
- ZigChaseTask.zigLeftRight rotation: the rotation by degrees is a function-valued parameter (`rotate`), not trigonometry.
- Floating point: vectors, distances and the factors 0.7071, 1.4, 1.5, 2.5 and 0.3 are exact reals. Float rounding is not modelled, including the float conversion of health values.
- Areas.GameArea.IncNum: does not model 32-bit wrap-around of `numEnemy`. Counters are unbounded integers; `DecNum`, `IncBossNum`, `DecBossNum` and the spawn counter are the same.
- Timers run on background threads in the game. Here they are explicit steps (`SetSubMessage`, `DashEnd`). How several pending timers interleave in real time is not modelled.
- KeyboardPlayerInputComponent:
  - The `update()` call in the CAPS LOCK branch is not modelled (the component's base update is not part of this model).
  - `lastDash` is never read.
  - The Java code passes its one mutable `walkDirection` vector with every event. Here each recorded event keeps a copy of the value.
- GameArea.spawnEntity also registers the entity with the entity service. That registration is not modelled.
- The Vector2 overload of spawnEntityAt changes the caller's vector in place. The model works on values.
- Not modelled in GameArea:
  - asset loading and unloading, music, `dispose`, `create` and `getPlayer`;
  - logging and console output;
  - the terrain's tile size and tile-to-world conversion, which are constructor parameters.
  - A map object lacking an "x" or "y" entry.
- Factories (NPCFactory, ObstacleFactory, CutsceneTriggerFactory) are fresh `Entity` objects of a given kind: a new entity at the origin with a given half scale.
- SpawnDecoysTask keeps the game area it saw at construction, yet increments the enemy count and reads it through the service locator at call time. The model takes these to be the same area.
- SpawnDecoysTask's owner health and maximum health are inputs. The combat-stats component is not part of this model.
- The Dialogue enum's texts are a `seq<string>` given to the constructor. Commands are tokens. The error log for a duplicate command name is not modelled.
- AlertableChaseTask's listeners: each task keeps the listeners it has added. How other tasks' listeners on the same entity's event handler are dispatched is not modelled.
- GameArea's map is null until setMap. The model's constructor takes a map, so the NullPointerException that decBossNum throws on an area without a map (once the boss count reaches 0 on level 9 or levels 0–4), and that every spawn…Object method and spawnMovementCutscenes throws at its first line, is not modelled.
- TextBox counts characters as Unicode scalar values, where Java's `length()` and `substring` count UTF-16 code units. For a message with characters outside the Basic Multilingual Plane, Java takes one more reveal step per such character and can show half a surrogate pair. `RevealCompletes`' count of L steps is in scalar values.
- The TextBox constructor keeps the caller's command map and puts "debug" into it, so the caller's map changes too. The model stores a copy of the map value, and the caller's map is not affected.
