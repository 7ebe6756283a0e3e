# VirusJager game logic in Dafny

VirusJager is a Unity driving game. This project models the parts of its
scripts that carry logic of their own:

- **`MapGenerator`** (`MapGeneration`, `map_generator.dfy`): the waypoint-walk road
  generator. It lays `numberOfPoints` waypoints ahead of the generator, each
  jittered vertically by a draw in [-noise, noise]. Then it walks the waypoint
  pairs and spawns one straight piece per pair, until a random draw asks for a
  turn. A turn is placed after the last piece and ends the walk. The model
  also covers the two prefab measures `GetPrefabLength` and `GetForwardExtent`.
- **`SimpleMapGenerator`** (`ModularRoad`, `modular_road_generator.dfy`): the
  snap-point generator. Starting from a temporary "StartSnap" at ground level,
  it places up to `maxSegments` pieces. Each piece is turned like the previous
  exit and put at that exit, less its entry offset turned by the prefab's own
  root rotation, plus a pivot offset, at ground height. When the prefab's root
  rotation equals the exit's rotation and there is no pivot offset, the entry
  meets the exit across the ground. Without a pivot offset it meets it exactly
  when the two rotations turn the entry offset alike.
  A straight without its snap point is skipped with a warning. A turn without
  both snap points ends the run with a warning. A placed turn also ends the run.
- **`UIManager`** (`GameOverUI`, `ui_manager.dfy`): the game-over menu. It
  latches the game-over state, pauses time, and navigates the buttons on
  steering-axis edges with wrap-around. A submit press clicks the selected
  button. It resumes time before a scene load.
- **`ScoreManager`** (`Score`, `score_manager.dfy`): the score counter with
  C# `int` wrap-around, and the "first live instance wins" singleton.

`engine.dfy` (`Engine`) holds stand-ins for engine services. The random-number
service is a fixed infinite stream of draws in [0, 1) (`RandomStream`), so
every generator run is a function of the stream and of how many draws were
already used. `Random.Range(int, int)` and `Random.Range(float, float)` are
derived from one draw each. Vectors are concrete. Rotating a vector and
composing rotations are the engine's maths and are passed in (`Geometry`).
`road.dfy` (`Road`) holds the piece kinds and the iteration count of a
`for (i = 0; i < n; i++)` loop.

Each loop-bearing method is proved against a recursive function of the old
state and the draws: `PlannedPath`, `Walk` and `Extend`. Its lemmas state
what the source promises about the road.

## Model

| member | source | states |
|---|---|---|
| Engine.RangeInt | VirusJager/Assets/Scripts/ModularRoadGenerator.cs:38 | `Random.Range(lo, hi)` on integers gives `lo` for an empty range and otherwise an index in [lo, hi) |
| Engine.RangeFloat | VirusJager/Assets/Scripts/MapGenerator.cs:74 | `Random.Range(lo, hi)` on floats lies between the two bounds, whichever is larger |
| Engine.RandomStream.Value | VirusJager/Assets/Scripts/ModularRoadGenerator.cs:31 | `Random.value` is the next draw of the stream and uses up exactly one draw |
| Engine.RandomStream.Range | VirusJager/Assets/Scripts/ModularRoadGenerator.cs:49 | an integer range draw uses one draw and lands in [lo, hi) when the range is not empty |
| Engine.RandomStream.RangeReal | VirusJager/Assets/Scripts/MapGenerator.cs:74 | a float range draw uses one draw and is `RangeFloat` of it |
| MapGeneration.PrefabLength | VirusJager/Assets/Scripts/MapGenerator.cs:83-91 | a prefab without a mesh has the default length 1; a mesh of non-negative depth and scale never gives a negative length |
| MapGeneration.ForwardExtent | VirusJager/Assets/Scripts/MapGenerator.cs:164-171 | the forward extent is half the prefab length exactly when the prefab has a mesh; without a mesh both are 1 |
| MapGeneration.PlannedPath | VirusJager/Assets/Scripts/MapGenerator.cs:71-76 | the path holds `count` waypoints; waypoint i is step i, lifted by the i-th draw's value in [-noise, noise] |
| MapGeneration.PathJitterBounded | VirusJager/Assets/Scripts/MapGenerator.cs:74 | no waypoint rises or sinks by more than the noise amplitude; with zero noise the path is flat |
| MapGeneration.Walk | VirusJager/Assets/Scripts/MapGenerator.cs:100-160 | walking `steps` pairs keeps the earlier pieces and adds at most one piece per step; it is defined exactly when every straight step has a straight prefab to index (a first step that turns needs none) |
| MapGeneration.WalkGoesStraight | VirusJager/Assets/Scripts/MapGenerator.cs:140-158 | without a turn, a step adds the straight template drawn after the coin (the coin is drawn only when there are turn prefabs) and the walk goes on |
| MapGeneration.WalkTurns | VirusJager/Assets/Scripts/MapGenerator.cs:110-138 | with turn prefabs, a coin below `turnChance` and a piece already placed, a step adds the drawn turn template and the walk stops, whether or not there are straight prefabs |
| MapGeneration.WalkEndsOnTurnOnly | VirusJager/Assets/Scripts/MapGenerator.cs:110-138 | only the last piece the walk adds can be a turn, and a turn is never the first piece of the list |
| MapGeneration.WalkShortEndsOnTurn | VirusJager/Assets/Scripts/MapGenerator.cs:137-138 | a walk that adds fewer pieces than it had steps stopped on a turn |
| MapGeneration.WalkTemplatesInRange | VirusJager/Assets/Scripts/MapGenerator.cs:110-143 | every template index is within its list, and a turn appears only when there are turn prefabs and a chance above zero |
| MapGeneration.WalkWithoutTurns | VirusJager/Assets/Scripts/MapGenerator.cs:110 | without turn prefabs or with no chance of a turn, the walk places exactly one straight piece per step |
| MapGeneration.GeneratedRoad | VirusJager/Assets/Scripts/MapGenerator.cs:94-161 | a road from scratch starts straight, has a turn at most as its last piece and right after a straight, has in-range templates, has at most one piece per waypoint pair, and is short only when it ends on a turn |
| MapGeneration.MapGenerator.constructor | VirusJager/Assets/Scripts/MapGenerator.cs:7-21 | a new generator keeps its settings and has no waypoints and no pieces |
| MapGeneration.MapGenerator.ResetMap | VirusJager/Assets/Scripts/MapGenerator.cs:39-59 | after a reset there are no spawned pieces and no waypoints |
| MapGeneration.MapGenerator.GeneratePath | VirusJager/Assets/Scripts/MapGenerator.cs:65-77 | the waypoints become `PlannedPath` of the next `numberOfPoints` draws, and exactly that many draws are used |
| MapGeneration.MapGenerator.SpawnRoadPieces | VirusJager/Assets/Scripts/MapGenerator.cs:94-161 | the pieces and the draws used are `Walk` over the waypoint pairs (none without waypoints); it may be called exactly when that walk never indexes an empty straight list |
| MapGeneration.MapGenerator.SpawnNext | VirusJager/Assets/Scripts/MapGenerator.cs:102-159 | one pass of the loop is one step of `Walk`; `stop` is the `break` after a turn, and a pass that goes on had a straight prefab to place |
| MapGeneration.MapGenerator.GenerateMap | VirusJager/Assets/Scripts/MapGenerator.cs:28-33 | the waypoints, pieces and draws used are those of a fresh path followed by a walk over its pairs, and the road is well formed with at most `numberOfPoints - 1` pieces |
| ModularRoad.Landing | VirusJager/Assets/Scripts/ModularRoadGenerator.cs:59-63 | a piece is put at ground height; when the prefab's root rotation is the cursor's rotation, its entry ends up at the cursor moved by the pivot offset across the ground |
| ModularRoad.ExitSnap | VirusJager/Assets/Scripts/ModularRoadGenerator.cs:68 | the new cursor is the exit offset turned by the piece's rotation away from the piece, turned by the piece's rotation composed with the exit's, and is not the start snap |
| ModularRoad.Place | VirusJager/Assets/Scripts/ModularRoadGenerator.cs:59-68 | placing appends exactly one piece of the drawn kind and template, turned like the cursor and at ground height, moves the cursor to its exit and leaves draws and warnings alone |
| ModularRoad.EntryMeetsCursor | VirusJager/Assets/Scripts/ModularRoadGenerator.cs:59-65 | without a pivot offset, the entry meets the cursor across the ground exactly when the prefab's root rotation and the cursor's rotation turn the entry offset alike |
| ModularRoad.EntryMissesTurnedCursor | VirusJager/Assets/Scripts/ModularRoadGenerator.cs:59-65 | an unrotated prefab placed from a cursor turned half round has its entry two units from the cursor, so the alignment is not a snap in general |
| ModularRoad.Iterate | VirusJager/Assets/Scripts/ModularRoadGenerator.cs:31-71 | an iteration leaves the loop exactly when there are turn prefabs and the coin is below `turnChance`; it goes on only with a straight prefab to draw; it uses two draws with turn prefabs and one without |
| ModularRoad.IterationPlaces | VirusJager/Assets/Scripts/ModularRoadGenerator.cs:31-71 | an iteration whose drawn template has its snap points places it at the cursor; it goes on after a straight and stops after a turn |
| ModularRoad.IterationWarns | VirusJager/Assets/Scripts/ModularRoadGenerator.cs:36-56 | an iteration whose drawn template lacks a snap point logs the warning of its kind; it goes on for a straight and stops for a turn |
| ModularRoad.IterateAddsOne | VirusJager/Assets/Scripts/ModularRoadGenerator.cs:31-71 | every iteration adds either exactly one warning or exactly one piece; the loop goes on only after a straight |
| ModularRoad.Extend | VirusJager/Assets/Scripts/ModularRoadGenerator.cs:29-72 | the loop keeps the earlier pieces and warnings and adds at most one piece or warning per iteration; it is defined exactly when no iteration indexes an empty straight list |
| ModularRoad.ExtendGoesOn | VirusJager/Assets/Scripts/ModularRoadGenerator.cs:29-56 | an iteration that does not leave the loop hands the rest of the budget to the next state |
| ModularRoad.ExtendHalts | VirusJager/Assets/Scripts/ModularRoadGenerator.cs:44 | an iteration that leaves the loop ends the run with its own state |
| ModularRoad.PlaceKeepsChained | VirusJager/Assets/Scripts/ModularRoadGenerator.cs:59-68 | placing a piece by `Landing` from the cursor, turned like it, keeps every piece placed from the exit before it |
| ModularRoad.IterateKeepsChained | VirusJager/Assets/Scripts/ModularRoadGenerator.cs:31-71 | one iteration keeps every piece placed by `Landing` from the exit before it, the first from the start snap |
| ModularRoad.ExtendKeepsChained | VirusJager/Assets/Scripts/ModularRoadGenerator.cs:29-72 | the whole loop keeps every piece placed by `Landing` from the exit before it, the first from the start snap |
| ModularRoad.ChainedConsequences | VirusJager/Assets/Scripts/ModularRoadGenerator.cs:59-74 | every piece stands at ground height, the first piece has the start snap's rotation, and the cursor is the start snap exactly when nothing was placed |
| ModularRoad.ExtendTurnOnlyLast | VirusJager/Assets/Scripts/ModularRoadGenerator.cs:70-71 | only the last piece a run adds can be a turn |
| ModularRoad.ExtendAllStraight | VirusJager/Assets/Scripts/ModularRoadGenerator.cs:47-66 | with no turn possible and a snap point on every straight prefab, each iteration places one straight piece and nothing is logged |
| ModularRoad.ExtendSkipsSnaplessStraights | VirusJager/Assets/Scripts/ModularRoadGenerator.cs:52-56 | a straight prefab without a snap point is skipped with a warning and the loop goes on, so such prefabs alone log one warning per iteration and place nothing |
| ModularRoad.TurnWithoutSnapPointsStops | VirusJager/Assets/Scripts/ModularRoadGenerator.cs:36-45 | a drawn turn missing a snap point ends the run at once with one warning and no new piece, whatever budget is left |
| ModularRoad.TurnMayComeFirst | VirusJager/Assets/Scripts/ModularRoadGenerator.cs:31-44 | nothing requires a straight piece before a turn: a turn can be the very first piece, and the run ends with it |
| ModularRoad.StraightAdvancesByPivotOnly | VirusJager/Assets/Scripts/ModularRoadGenerator.cs:49-68 | when a straight prefab's root rotation equals the cursor's rotation, its exit lands where its entry did, so the cursor moves only by the pivot offset across the ground |
| ModularRoad.SimpleMapGenerator.constructor | VirusJager/Assets/Scripts/ModularRoadGenerator.cs:6-17 | a new generator keeps its settings and has no pieces and no cursor |
| ModularRoad.SimpleMapGenerator.ResetMap | VirusJager/Assets/Scripts/ModularRoadGenerator.cs:79-91 | after a reset there are no spawned pieces |
| ModularRoad.SimpleMapGenerator.StartSnap | VirusJager/Assets/Scripts/ModularRoadGenerator.cs:25-27 | the start snap is marked as such, lies at ground height under the generator and is turned like it |
| ModularRoad.SimpleMapGenerator.GenerateMap | VirusJager/Assets/Scripts/ModularRoadGenerator.cs:20-76 | the pieces, cursor, draws and warnings are `Extend` of `maxSegments` iterations from the start snap; every piece is placed from the exit before it and stands on the ground; the start snap is destroyed only when nothing was placed |
| ModularRoad.SimpleMapGenerator.SpawnSegments | VirusJager/Assets/Scripts/ModularRoadGenerator.cs:29-72 | the loop turns the pieces, cursor and draws into `Extend` of `maxSegments` iterations and returns the warnings it logged |
| ModularRoad.SimpleMapGenerator.SpawnNext | VirusJager/Assets/Scripts/ModularRoadGenerator.cs:31-71 | one pass of the loop is one `Iterate`; `stop` is the `break` |
| GameOverUI.IndexOf | VirusJager/Assets/Pepijn/Scripts/UIManager.cs:86 | the lookup gives -1 exactly when the button is absent, and otherwise its first position |
| GameOverUI.Wrap | VirusJager/Assets/Pepijn/Scripts/UIManager.cs:89-91 | a shifted index is brought back into [0, count) |
| GameOverUI.Moved | VirusJager/Assets/Pepijn/Scripts/UIManager.cs:81-94 | a move changes nothing when nothing is selected or the selection is not one of the panel's buttons, and from a panel button it selects a panel button, whatever the direction |
| GameOverUI.Navigation | VirusJager/Assets/Pepijn/Scripts/UIManager.cs:47-51 | the step is -1, 0 or 1; it is 1 exactly when the axis rises past 0.5 and -1 exactly when it falls past -0.5 |
| GameOverUI.IndexOfDistinct | VirusJager/Assets/Pepijn/Scripts/UIManager.cs:86 | in a list without repeats each button is found at its own position |
| GameOverUI.WrapIsModular | VirusJager/Assets/Pepijn/Scripts/UIManager.cs:89-91 | for a shift of at most one past either end, the wrap equals the index modulo the count |
| GameOverUI.StepIsModular | VirusJager/Assets/Pepijn/Scripts/UIManager.cs:89-93 | one step right or left moves to position (i ± 1) modulo the number of buttons |
| GameOverUI.WrapsAtTheEnds | VirusJager/Assets/Pepijn/Scripts/UIManager.cs:90-91 | right from the last button gives the first, and left from the first gives the last |
| GameOverUI.ForwardThenBackRestores | VirusJager/Assets/Pepijn/Scripts/UIManager.cs:89-93 | a step right followed by a step left restores any selection |
| GameOverUI.HoldingDoesNotRepeat | VirusJager/Assets/Pepijn/Scripts/UIManager.cs:48-53 | holding the wheel at the same value never moves the selection again |
| GameOverUI.NoRepeatWithoutRelease | VirusJager/Assets/Pepijn/Scripts/UIManager.cs:48-53 | two updates in a row never both step right, nor both step left |
| GameOverUI.UIManager.constructor | VirusJager/Assets/Pepijn/Scripts/UIManager.cs:9-19 | a new menu holds distinct panel buttons that all carry a `Button` and a first button that is one; it is not in the game-over state and its last steer value is 0 |
| GameOverUI.UIManager.Start | VirusJager/Assets/Pepijn/Scripts/UIManager.cs:33-39 | the panel is hidden |
| GameOverUI.UIManager.Update | VirusJager/Assets/Pepijn/Scripts/UIManager.cs:41-64 | before game over nothing changes; after it, `lastSteer` becomes the value read, a steering edge moves the selection by the `Navigation` step, the selection stays on the panel, and a submit press clicks exactly the selected button |
| GameOverUI.UIManager.ShowGameOver | VirusJager/Assets/Pepijn/Scripts/UIManager.cs:66-79 | the first call shows the panel, selects the first button and sets the time scale to 0; later calls change nothing |
| GameOverUI.UIManager.MoveSelection | VirusJager/Assets/Pepijn/Scripts/UIManager.cs:81-94 | the selection becomes `Moved` of the old one and stays on the panel when it was on it; for such a menu, a step of one from panel button i selects button (i ± 1) modulo the number of buttons |
| GameOverUI.UIManager.TryAgain | VirusJager/Assets/Pepijn/Scripts/UIManager.cs:96-100 | the time scale is back to 1 and the active scene is reloaded |
| GameOverUI.UIManager.GoToMainMenu | VirusJager/Assets/Pepijn/Scripts/UIManager.cs:102-106 | the time scale is back to 1 and the "MainMenu" scene is loaded |
| Score.Wrap32 | VirusJager/Assets/Scripts/ScoreManager.cs:18 | `int` arithmetic gives the 32-bit value congruent to the exact result, which is the exact result when it fits |
| Score.WrapIgnoresModulus | VirusJager/Assets/Scripts/ScoreManager.cs:18 | values that differ by a multiple of 2^32 wrap to the same `int` |
| Score.AddThenMinusRestores | VirusJager/Assets/Scripts/ScoreManager.cs:16-26 | adding an amount then subtracting it restores the score, even across overflow |
| Score.ChangeIsExactInRange | VirusJager/Assets/Scripts/ScoreManager.cs:16-26 | without overflow a change is exact, and subtracting more than the score makes it negative (no clamping) |
| Score.Registry.constructor | VirusJager/Assets/Scripts/ScoreManager.cs:5 | the static `Instance` starts empty |
| Score.Registry.Destroy | VirusJager/Assets/Scripts/ScoreManager.cs:13 | a destroyed component joins the destroyed set |
| Score.ScoreManager.constructor | VirusJager/Assets/Scripts/ScoreManager.cs:7 | the score starts at 0 |
| Score.ScoreManager.Awake | VirusJager/Assets/Scripts/ScoreManager.cs:9-14 | the first live component becomes `Instance`; a later one leaves `Instance` alone and is destroyed |
| Score.ScoreManager.AddScore | VirusJager/Assets/Scripts/ScoreManager.cs:16-20 | the score grows by the amount, with `int` wrap-around, and nothing else changes |
| Score.ScoreManager.MinusScore | VirusJager/Assets/Scripts/ScoreManager.cs:22-26 | the score shrinks by the amount, with `int` wrap-around and no clamping, and nothing else changes |

## Left out

- Positions and rotations in `MapGenerator` are abstract: waypoints keep their step index and vertical jitter, and pieces keep their kind and template. The spawn position, `Quaternion.LookRotation`/`Euler`, `spacing`, `pieceSpacing`, `pivotOffset`, the turn placement by `GetForwardExtent`, and the cursor advance by `GetPrefabLength` are floating-point geometry and are not modelled. `PrefabLength` and `ForwardExtent` model the two measures as the product of the mesh depth and the z scale (`lossyScale.z`), whatever their signs.
- Rotating a vector and composing rotations in `SimpleMapGenerator` are engine maths and are parameters (`Geometry`). The exit snap's world transform assumes instance scale 1.
- Engine object lifetime: `Instantiate`, `Destroy`/`DestroyImmediate`, the editor/player branch of `ResetMap`, and null checks on destroyed pieces. A spawned piece is a value in a list, and "destroy all" empties the list. `SimpleMapGenerator` tracks the leaked or destroyed StartSnap only as the count `liveStartSnaps`.
- MapGeneration.MapGenerator.SpawnRoadPieces: requires what keeps the source from throwing on an empty straight list: at most one waypoint, or a straight prefab, or a first step that turns (turn prefabs, the first coin below `turnChance`, and a piece already placed). The throw itself is not modelled.
- ModularRoad.SimpleMapGenerator.GenerateMap: requires what keeps the source from throwing on an empty straight list: no iteration, or a straight prefab, or a first coin that turns (turn prefabs and the first draw below `turnChance`). After a first turn the loop ends, so later iterations never index the list. The throw itself is not modelled.
- GameOverUI.UIManager.constructor: requires distinct panel buttons that all carry a `Button`, and a first selected button that is one, as `GetComponentsInChildren<Button>` and the `Button`-typed field guarantee.
- `Random.value` is modelled in [0, 1). The engine documents it as inclusive of 1, which only matters for a turn chance of exactly 1. Likewise a float range draw (`Random.Range(float, float)`, inclusive of its upper bound in the engine) never returns its upper bound here, so no waypoint is lifted by exactly `noise`.
- `Debug.Log` of the score and of generation progress is not modelled. The two generator warnings of `SimpleMapGenerator` are returned as a list.
- UIManager engine plumbing: `OnEnable`/`OnDisable` input actions, reading the steering axis and the submit trigger (parameters of `Update`), `EventSystem.current` (the selection is a field), `GetComponentsInChildren<Button>` (the panel's buttons are fixed), `onClick.Invoke` (the clicked button is returned), and `SceneManager.LoadScene` (the scene request is returned).
- GameOverUI.UIManager.ShowGameOver and MoveSelection: a missing panel (`gameOverPanel == null`) is not modelled; the panel always exists. With the source's null panel, `ShowGameOver` skips showing it and `MoveSelection` throws.
- GameOverUI.ForwardThenBackRestores and StepIsModular: require distinct buttons that all carry a `Button`, as `GetComponentsInChildren<Button>` returns.
- `G29Controller`, `EnemyFlowState` and `CollisionRBC` are not part of this model. The only effect of `CollisionRBC` on the modelled state is `MinusScore(10)`, which `MinusScore` covers.
