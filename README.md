# Elevator, floors and mess: a Dafny model of the gameplay core of *elevator_error*

The game is a short horror experience set in an office building. The player
rides an elevator between a ground floor and five floors, cleans up "dirty
items" on each floor, and reacts to anomalies. This project models the
gameplay state that sits behind the engine callbacks, one module per script:

- `Elevator` (`ButtonPanel.cs`): the button panel. It has a motion state
  (`Idle`, `Opening`, `Closing`, `GoingUp`, `GoingDown`) and a door state
  (`Open`, `Closed`). It keeps one "move once the doors have closed" action
  with a countdown, and a vibration timer that ends every trip. At the end of
  a trip the elevator is put back at the captured position, the panel goes
  idle, and the doors open on their own.
- `Floors` (`FloorManager.cs`, `FloorData.cs`): five floor records and a
  pointer to the current floor, where null means the ground floor. The advance
  handler is gated on the current floor being cleaned. It routes by direction
  and anomaly: either back to ground or one floor deeper. The last floor is a
  cap.
- `Mess` (`MessManager.cs`): the number of items to spawn, which is the curve
  value clamped to the number of spawn positions. It also holds the in-place
  Fisher–Yates shuffle whose prefix gives the spawn points, and the
  outstanding-item counter that raises the floor-cleaned notification.
- `Doors` (`Door.cs`): an Open/Close toggle, locked by a latch while the door
  animation plays.
- `Lights` (`LightSwitch.cs`): an on/off flag mirrored into the light actor's
  active flag.

`Engine` holds stand-ins for the engine's `Vector3` (exact reals) and `Actor`.
`Wrappers` holds `Option`.

Each script is a Dafny `class` with the script's fields. Its handlers are
methods with `modifies` clauses. For the button panel, the ghost function
`ButtonPanel.Model()` gives the abstract value, a `Panel` datatype. Every
method's postcondition names the `Panel` transition it performs. The panel's
properties are lemmas about those transitions, including lemmas over sequences
of frames (`Run`, `Elapsed`). For the floor manager, the ghost field `index`
(the current record's position, -1 at ground) and the ghost function
`Records()` (the flags of every record) give the abstract state.

Inputs that come from outside are parameters:
- the frame time (`dt`) and the vibration offset computed for that frame;
- the elevator direction given to the advance handler;
- the spawn curve, already evaluated and rounded, as a function from floor
  number to integer;
- the random draws of the shuffle, as a sequence whose i-th entry lies in
  [0, i].

Behaviour of the code that the model keeps as written:
- The ground floor is reported to the floor-change listeners as -1
  (`FloorManager.cs:126`), while `CurrentFloor` reports it as 0
  (`FloorManager.cs:37`).
- The floor-cleaned notification is raised on every interaction that leaves
  the counter at zero or below. The counter is never clamped, so extra
  interactions make it negative and raise the notification again
  (`MessManager.cs:106-113`).
- A floor whose count is zero spawns nothing, and nothing raises
  floor-cleaned for it (`MessManager.cs:52-104`).
- The door's floor-change handler closes the door *with* its animation but
  without sound (`Door.cs:50`). So it sets the turning latch when the door was
  open. Only `OnAwake` closes without animation.
- Opening and Closing never return to Idle on their own. Only `SwitchToIdle`
  and the end of a trip leave them.
- The move slot is filled only from Idle (`ButtonPanel.cs:140, 160`), and
  while the doors close the panel is not Idle, so a stored move is never
  overwritten before it fires.
- Nothing in the code shown sets `HasAnomaly` to true. The anomaly branches of
  the routing rule are modelled as written.
- Going from ground to the first floor does not reset that record. Entering
  any deeper floor resets both of its flags (`FloorManager.cs:147-164`).

## Model

| member | source | states |
|---|---|---|
| Elevator.ButtonPanel.constructor | Source/Game/Elevator/ButtonPanel.cs:26-49 | the panel starts idle with the doors closed, not vibrating, pending timer -1 and no stored action |
| Elevator.ButtonPanel.OnUpdate | Source/Game/Elevator/ButtonPanel.cs:63-102 | the new panel is `Update(frame)` of the old one: the pending step first, then the vibration step |
| Elevator.ButtonPanel.OnGoUpButtonInteracted | Source/Game/Elevator/ButtonPanel.cs:137-156 | the new panel is `MovePressed(Up)`: ignored unless idle, close-then-move if the doors are open, move at once otherwise |
| Elevator.ButtonPanel.OnGoDownButtonInteracted | Source/Game/Elevator/ButtonPanel.cs:158-177 | the same transition as Up, in direction Down |
| Elevator.ButtonPanel.StartMove | Source/Game/Elevator/ButtonPanel.cs:145-155 | the move callback: the state becomes GoingUp/GoingDown and the vibration starts |
| Elevator.ButtonPanel.CloseDoorsThen | Source/Game/Elevator/ButtonPanel.cs:179-185 | closes the doors, stores the move in the single slot, and sets the timer to the transition duration |
| Elevator.ButtonPanel.StartElevatorVibration | Source/Game/Elevator/ButtonPanel.cs:189-199 | the current position becomes the original, vibration time is 0, and vibrating is on |
| Elevator.ButtonPanel.StopElevatorVibration | Source/Game/Elevator/ButtonPanel.cs:201-208 | the position is restored exactly to the original and vibrating is off |
| Elevator.ButtonPanel.OnCloseButtonInteracted | Source/Game/Elevator/ButtonPanel.cs:212-218 | ignored unless idle with the doors open; otherwise closes the doors |
| Elevator.ButtonPanel.CloseDoors | Source/Game/Elevator/ButtonPanel.cs:220-230 | the state becomes Closing and the door Closed; nothing else changes |
| Elevator.ButtonPanel.OnOpenButtonInteracted | Source/Game/Elevator/ButtonPanel.cs:233-246 | ignored unless idle with the doors closed; otherwise the state is Opening and the door Open |
| Elevator.ButtonPanel.SwitchState | Source/Game/Elevator/ButtonPanel.cs:249-253 | only the state is assigned |
| Elevator.ButtonPanel.SwitchToIdle | Source/Game/Elevator/ButtonPanel.cs:255-259 | only the state is assigned, to Idle |
| Elevator.BusyPanelIgnoresButtons | Source/Game/Elevator/ButtonPanel.cs:137-246 | when the state is not Idle, Open, Close, Up and Down all leave the panel unchanged |
| Elevator.DoorRequestsMatchingDoorAreNoOps | Source/Game/Elevator/ButtonPanel.cs:212-246 | Open with the doors open, and Close with the doors closed, change nothing |
| Elevator.DoorButtonsOnIdlePanel | Source/Game/Elevator/ButtonPanel.cs:220-246 | on an idle panel, Open gives Opening/Open and Close gives Closing/Closed; all other fields stay as they were |
| Elevator.MoveWithDoorsClosed | Source/Game/Elevator/ButtonPanel.cs:151-199 | idle with the doors closed, a move starts at once: moving state, vibrating, time 0, the current position captured |
| Elevator.MoveWithDoorsOpen | Source/Game/Elevator/ButtonPanel.cs:143-185 | idle with the doors open, a move only closes the doors and stores the move with timer = duration; no vibration starts |
| Elevator.PendingMoveFires | Source/Game/Elevator/ButtonPanel.cs:63-76 | when the countdown reaches 0, the stored move runs and the slot is emptied (timer -1); the vibration step of the same frame runs after it |
| Elevator.EmptySlotStaysQuiet | Source/Game/Elevator/ButtonPanel.cs:65-74 | with a negative timer, the pending step of an update does nothing, so a fired move never runs again |
| Elevator.VibrationEnds | Source/Game/Elevator/ButtonPanel.cs:94-100 | when vibration time reaches the duration: vibration stops, the position is exactly the original, the door is Open, and the state is Opening (Idle if the doors were already open) |
| Elevator.SwitchStateIdempotent | Source/Game/Elevator/ButtonPanel.cs:249-259 | SwitchState and SwitchToIdle only assign the state and are idempotent |
| Elevator.ClosingPhase | Source/Game/Elevator/ButtonPanel.cs:63-74 | frames that together last less than the pending timer only count it down by their total time |
| Elevator.MovingPhase | Source/Game/Elevator/ButtonPanel.cs:76-101 | frames that keep the vibration time below the duration only add their total time and set position = original + latest offset |
| Elevator.CloseThenMove | Source/Game/Elevator/ButtonPanel.cs:63-185 | a move asked with the doors open: the doors stay closed with no motion until the timer runs out; in that frame the move starts from the old position and the slot empties |
| Elevator.MoveCompletes | Source/Game/Elevator/ButtonPanel.cs:76-101 | a trip under way stays in its moving state until its time is up, then ends Opening/Open with the position exactly at the original |
| Elevator.RoundTrip | Source/Game/Elevator/ButtonPanel.cs:63-246 | close, move, arrive: the whole trip from an idle open panel ends Opening/Open, back at the starting position, with the slot empty |
| Floors.FloorData.constructor | Source/Game/Data/FloorData.cs:8-19 | a new record is not cleaned and has no anomaly |
| Floors.FloorManager.constructor | Source/Game/Manager/FloorManager.cs:48-57 | after awake: 5 distinct, newly allocated records, all flags false, current floor ground; the new manager owns the array and every record, so its handlers may be called on it |
| Floors.FloorManager.InitializeFloors | Source/Game/Manager/FloorManager.cs:85-92 | fills every slot with a fresh, distinct record with both flags false |
| Floors.FloorManager.OnFloorAdvanceRequested | Source/Game/Manager/FloorManager.cs:100-136 | from ground: true, first floor, emits 1. An uncleaned floor: false, nothing changes, nothing emitted. A cleaned floor: true, then either ground and -1, one floor deeper (reset) and its number, or the last floor unchanged and 5 |
| Floors.FloorManager.GoToNextFloor | Source/Game/Manager/FloorManager.cs:145-167 | ground to the first record without resetting it; index i < 4 to i+1 with that record reset; the last floor unchanged; no other record changes |
| Floors.FloorManager.GoToGroundFloor | Source/Game/Manager/FloorManager.cs:172-176 | the current floor becomes ground; the records are unchanged |
| Floors.FloorManager.FindFloorNumber | Source/Game/Manager/FloorManager.cs:184-195 | returns the first index holding that very record, or -1 exactly when no slot holds it |
| Floors.FloorManager.CurrentFloor | Source/Game/Manager/FloorManager.cs:37 | 0 at ground and index + 1 otherwise, so it always lies in 0..5 |
| Floors.FloorManager.IsCurrentFloorCleaned | Source/Game/Manager/FloorManager.cs:231-236 | true at ground, otherwise the current record's cleaned flag |
| Floors.FloorManager.OnFloorCleaned | Source/Game/Manager/FloorManager.cs:238-241 | sets the cleaned flag of the current record; no other record or flag changes |
| Mess.SpawnCount | Source/Game/Manager/MessManager.cs:60-61 | the count lies in [0, number of positions]; it equals the rounded value when that is in range, and 0 or the maximum when it is not |
| Mess.MessManager.constructor | Source/Game/Manager/MessManager.cs:19-37 | keeps the spawn positions, the curve and the model count; the counter starts at 0 |
| Mess.MessManager.OnFloorChanged | Source/Game/Manager/MessManager.cs:52-104 | with no curve or no models: nothing spawned and the counter unchanged. Otherwise the spawned points are the first `count` entries of the shuffle, and the counter goes up by exactly `count` (not reset) |
| Mess.MessManager.OnDirtyItemInteracted | Source/Game/Manager/MessManager.cs:106-113 | the counter goes down by exactly 1; floor-cleaned fires exactly when the new value is at most 0 |
| Mess.MessManager.Shuffle | Source/Game/Manager/MessManager.cs:115-123 | the array afterwards is `Shuffled(old contents, draws)`, swapping i with draw i for i from the last index down to 1 |
| Mess.SwapPermutes | Source/Game/Manager/MessManager.cs:121 | a swap keeps the length and the multiset of elements |
| Mess.SwapKeepsDistinct | Source/Game/Manager/MessManager.cs:121 | a swap of a list without duplicates has no duplicates |
| Mess.ShuffleFromPermutes | Source/Game/Manager/MessManager.cs:118-122 | every tail of the shuffle loop keeps the length and the multiset |
| Mess.ShufflePermutes | Source/Game/Manager/MessManager.cs:115-123 | for any valid draws, the shuffle is a permutation of its input |
| Mess.ShuffleFromKeepsDistinct | Source/Game/Manager/MessManager.cs:118-122 | every tail of the shuffle loop keeps a duplicate-free list duplicate-free |
| Mess.SpawnPointsDistinct | Source/Game/Manager/MessManager.cs:69-76 | the first `count` shuffled positions are pairwise distinct when the positions are, and each is one of the positions |
| Doors.Door.constructor | Source/Game/Interactions/Door.cs:23-25 | the state is the enum default Open and the latch is off |
| Doors.Door.OnAwake | Source/Game/Interactions/Door.cs:30-35 | the state becomes Close; the latch is left as it was (no animation) |
| Doors.Door.OnFloorChangeRequested | Source/Game/Interactions/Door.cs:48-51 | the state becomes Close; the latch is set exactly when the door was open (animated close) or already set |
| Doors.Door.OnInteract | Source/Game/Interactions/Door.cs:54-58 | the same as ToggleDoor |
| Doors.Door.ToggleDoor | Source/Game/Interactions/Door.cs:60-73 | no change while the latch is set; otherwise Open and Close swap, and the latch is set |
| Doors.Door.SwitchState | Source/Game/Interactions/Door.cs:75-105 | the state becomes the new one. Switching to the current state changes nothing. A real change sets the latch exactly when it is animated |
| Doors.Door.OnAnimationFinished | Source/Game/Interactions/Door.cs:107-111 | clears the latch; the state is unchanged |
| Lights.LightSwitch.constructor | Source/Game/Interactions/LightSwitch.cs:14-15 | the switch starts on, and the light actor is untouched |
| Lights.LightSwitch.OnAwake | Source/Game/Interactions/LightSwitch.cs:19-24 | the light is off and mirrored, overriding the initial on |
| Lights.LightSwitch.OnFloorChangeRequested | Source/Game/Interactions/LightSwitch.cs:37-40 | the light is off and mirrored whatever the state before, so doing it twice is the same as once |
| Lights.LightSwitch.OnInteract | Source/Game/Interactions/LightSwitch.cs:43-47 | the flag flips and the light actor mirrors it |
| Lights.LightSwitch.ToggleLight | Source/Game/Interactions/LightSwitch.cs:50-55 | the flag and the light actor's active flag both equal the argument |

## Left out

- Vibration offset: the sine/cosine terms, the easing curve of the foreign plugin and the intensity scaling (`ButtonPanel.cs:79-92`) are float numerics. The offset is an input of `OnUpdate`. The model states only "position = original + offset while vibrating, exactly the original after the stop".
- Floating point: timers and positions are exact reals, so float rounding of the countdowns is not modelled.
- Null elevator actor: the script has guards for a missing elevator actor (`ButtonPanel.cs:76, 192, 203`). `CloseDoors` would dereference it anyway. The model assumes the actor is present.
- Button wiring: the lookup `GetInteractOrThrow` throws on a missing button. The button and event subscribe/unsubscribe code of all scripts (`OnAwake`, `OnStart`, `OnDisable`) is engine plumbing and is not modelled.
- Cross-component wiring: the floor manager subscribes to two button-panel events (`FloorManager.cs:55-56`), and doors and light switches to the second of them (`OnElevatorStoppedVibrating`, `Door.cs:39`, `LightSwitch.cs:28`). Neither exists in the button panel's code. So the components are modelled separately, and the direction of the advance handler is a parameter.
- Audio, scene animations, sky-light brightness (`FloorManager.cs:54, 59-65`) and debug or player messages are output-only and are not modelled.
- `GetRandomVisualAnomaly` and `GetRandomTrigger` are never used and are not modelled.
- Floors.FloorManager.OnFloorCleaned: requires a non-ground current floor, because the script dereferences the current record (`FloorManager.cs:240`). At ground it would throw, and that is not modelled. The path is real: a Down advance from a cleaned floor without an anomaly emits -1 (`FloorManager.cs:126`), the mess handler then spawns clamp(curve(-1)) items at ground (`MessManager.cs:52-89`), and cleaning them raises floor-cleaned while the current floor is null.
- Spawn curve: Bezier evaluation and `Mathf.RoundToInt` are float operations of the engine. The curve is a function giving the rounded value.
- Randomness: `System.Random` in `Shuffle` is replaced by a sequence of draws.
- Spawning: `PrefabManager.SpawnPrefab`, the random model choice, `Level.SpawnActor`, the per-item interaction subscription, and the `DirtyItem` actor that destroys itself. `OnFloorChanged` returns the chosen spawn points in their place.
- Dependencies not shown: the base class of doors and switches (`AInteraction`, with `_isToggleable` and `FinishInteraction`) is not part of this model.
- UI and other files: the UI scripts, animation events, anomaly activators, the elevator button script, and the pure anomaly data and enum files have no gameplay state of their own.
