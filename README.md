# nobody_is_perfect: wandering entities and player movement

A model of the two pieces of game logic in this early version of the game.

- **Entities** (`entities.dfy`, module `Entities`). There are three entity forms: rectangle, pentagon and hexagon. Each form is drawn as a regular polygon with 4, 5 or 6 sides, all with radius 30. A random index from `0..3` picks the form. A spawned entity stores the form it is drawn as and starts at the origin. Every tick, each entity moves by its fixed direction vector. The world is a `Population` whose `spawned` sequence gets appended to on spawn and updated entry by entry on move.
- **Player** (`player.dfy`, module `Player`). Input becomes a displacement of `input * 150 * dt`. The player adds it to its translation, then clamps x and y into `[-border, border]`, with border 500. The cursor offset is updated only when a cursor event arrived. The player turns towards the cursor and the camera snaps onto it. The field-of-view cone copies the player's x, y and rotation at depth 0. Player, camera and cone transforms are `Transform` objects that the systems update in place. The ECS queries become sequences of distinct objects, and the `With`/`Without` filters become disjointness preconditions.
- **Shared values** (`world.dfy`, module `World`). This module holds the vectors, `Option`, Rust's `f32::clamp`, the `Transform` component, the rotation and the world border.

`f32` is modelled as `real` with NaN excluded. No rounding is modelled.

Later versions of the game add wander redirection, bouncing off the border, a cone containment test, befriending, courage, levels and death. None of that is in `game_plugin/src/entities.rs` or `game_plugin/src/player.rs` here, and the model follows this version. In this version the entities are not bounded by the border at all (`EntitiesUnbounded`), and their step is not scaled by time.

## Model

| member | source | states |
|---|---|---|
| `World.Clamp` | game_plugin/src/player.rs:139-140 | `f32::clamp`: it needs `lo <= hi` (it panics otherwise). The result lies in `[lo, hi]`, equals the value when the value is inside, is `lo` below and `hi` above |
| `World.ClampIsNearest` | game_plugin/src/player.rs:139-140 | clamping projects onto the interval: no point of `[lo, hi]` is closer to the value |
| `World.ClampIdempotent` | game_plugin/src/player.rs:139-140 | clamping twice equals clamping once |
| `World.Transform.FromTranslation` | game_plugin/src/player.rs:82 | `Transform::from_translation` gives the translation and no rotation |
| `Entities.ToShape` | game_plugin/src/entities.rs:37-48 | every form is drawn with radius 30 at the default centre, and with 4 to 6 sides |
| `Entities.ShapeDeterminesForm` | game_plugin/src/entities.rs:38-42 | the side count gives the form back: Rectangle has 4 sides, Pentagon 5, Hexagon 6 |
| `Entities.FormOfSidesInvertsShape` | game_plugin/src/entities.rs:38-42 | exactly the counts 4, 5 and 6 are drawn, each by the form that `FormOfSides` names |
| `Entities.ToShapeInjective` | game_plugin/src/entities.rs:38-47 | distinct forms give distinct shapes, and two forms' shapes differ only in the side count |
| `Entities.Sample` | game_plugin/src/entities.rs:52-58 | index 0 gives Rectangle and only 0 does; index 1 gives Pentagon and only 1 does; every index from 2 up gives Hexagon |
| `Entities.SampleReachesEveryForm` | game_plugin/src/entities.rs:53-57 | every form is reached from an index in `0..3` |
| `Entities.SampleOneToOne` | game_plugin/src/entities.rs:53-57 | on `0..3` distinct indices give distinct forms, and `SampleIndex` inverts `Sample` |
| `Entities.Spawn` | game_plugin/src/entities.rs:66-82 | a spawned entity is drawn as the form it stores (the form can be read back from the side count), keeps the given direction and starts at the origin |
| `Entities.Advance` | game_plugin/src/entities.rs:87 | one entity's step: form, direction, shape and z are kept, only x and y move. Where the step leads over any number of ticks is `TicksClosedForm` |
| `Entities.Tick` | game_plugin/src/entities.rs:86-88 | one pass of `move_entities`: every entity takes its `Advance` step and the count is kept. Its closed form over n passes is `TicksClosedForm` |
| `Entities.Ticks` | game_plugin/src/entities.rs:86-88 | n passes of `move_entities`; the count is kept. Where each entity ends is `TicksClosedForm` |
| `Entities.TicksClosedForm` | game_plugin/src/entities.rs:85-89 | after n ticks an entity is at `start + n * (dir.x, dir.y, 0)`. Its form, direction, shape and z are unchanged |
| `Entities.TicksKeepDrawing` | game_plugin/src/entities.rs:85-89 | moving never breaks the agreement between stored form and drawn shape |
| `Entities.EntitiesUnbounded` | game_plugin/src/entities.rs:86-88 | the step is not bounded: an entity whose direction has a positive x part passes any bound on x after enough ticks |
| `Entities.EntitiesIgnoreBorder` | game_plugin/src/entities.rs:86-88 | the step is not bounded by the world border: an entity heading along x is past 500 after 501 ticks |
| `Entities.Population.SpawnEntity` | game_plugin/src/entities.rs:66-83 | appends exactly `Spawn(index, direction)` and keeps every entity drawn as its form |
| `Entities.Population.MoveEntities` | game_plugin/src/entities.rs:85-89 | the new population is one `Tick` of the old one. Form/shape agreement is preserved |
| `Player.Movement` | game_plugin/src/player.rs:122-131 | the displacement has z = 0, and is zero when there is no input. Its size on x and y is stated by MovementPerSecond and MovementAdditive |
| `Player.MovementPerSecond` | game_plugin/src/player.rs:122-128 | in one second the displacement is 150 times the input on x and y |
| `Player.MovementAdditive` | game_plugin/src/player.rs:123-128 | the displacement is proportional to elapsed time: the displacements of dt1 and dt2 add up to that of dt1 + dt2 |
| `Player.CursorOffset` | game_plugin/src/player.rs:133-135 | the offset is zero exactly when the cursor is at the window centre. That it is the position minus half the window size is `CursorOffsetFromCentre` |
| `Player.CursorOffsetFromCentre` | game_plugin/src/player.rs:132-136 | the offset is measured from the window centre: the centre maps to zero, and adding half the window size gives the position back |
| `Player.ClampedStep` | game_plugin/src/player.rs:137-140 | after the step, x and y lie in `[-border, border]`. z moves only by the displacement's z. On each axis the result is the plain sum whenever the sum is inside the border |
| `Player.IdleKeepsPlace` | game_plugin/src/player.rs:129-140 | a player inside the border with no input keeps its translation |
| `Player.OvershootStopsOnBorder` | game_plugin/src/player.rs:138-140 | a move that overshoots the border on an axis ends exactly on that border: clamping comes after the add |
| `Player.Walk` | game_plugin/src/player.rs:137-140 | repeated `move_player` translation updates, one `ClampedStep` per tick's input: after at least one tick the player is inside the border. Its height and the start-inside case are `WalkKeepsHeightAndBorder` and `SpawnedPlayerStaysInWorld` |
| `Player.WalkKeepsHeightAndBorder` | game_plugin/src/player.rs:123-140 | over any run of ticks z never changes, and the player ends inside the border if it started inside or took a step |
| `Player.SpawnedPlayerStaysInWorld` | game_plugin/src/player.rs:82 | from its spawn point the player stays at z = 1 and inside the border of 500 for any run of inputs |
| `Player.CursorPosition.constructor` | game_plugin/src/player.rs:23-25 | the cursor offset resource starts at zero |
| `Player.SpawnPlayer` | game_plugin/src/player.rs:66-85 | the player's transform is new, at (0, 0, 1), with no rotation |
| `Player.SpawnFieldOfView` | game_plugin/src/player.rs:96-110 | the cone's transform is new, at (0, 0, 2), with no rotation |
| `Player.MovePlayer` | game_plugin/src/player.rs:112-146 | The cursor offset becomes the last event's position minus half its window's size, and is unchanged without events. Each player's translation becomes `ClampedStep(old, Movement(input, dt), border)`, so it is inside the border with z unchanged. Each player faces the cursor offset. Every camera ends on the last player's translation and keeps its rotation. Without players the cameras are unchanged |
| `Player.PutCamerasOn` | game_plugin/src/player.rs:142-144 | every camera takes the given translation and keeps its rotation |
| `Player.MoveFieldOfView` | game_plugin/src/player.rs:148-155 | every cone ends at the last player's x and y with z = 0 and with the player's rotation. Without players the cones are unchanged |

## Left out

- Randomness: `random()`, `gen_range(0..3)` and the random direction in `spawn_entity` are parameters. `SpawnEntity` takes the sampled index and the already normalised direction. `Vec2::normalize` is not modelled.
- Rotation: `Quat::from_rotation_z(-offset.angle_between(up))` is not computed. The model keeps the offset the rotation is built from (`TowardCursor(offset)`), so it does not state that offsets pointing the same way give the same rotation. Until the first cursor event the offset is zero, and the angle between a zero vector and the up axis is not defined, so the source's rotation on those ticks is not a meaningful rotation. The model still records `TowardCursor(Zero2)` as an ordinary rotation, and the cone copies it.
- Scheduling: the 2-second fixed timestep that runs `spawn_entity`, the `GameState::Playing` gating and the ordering of `move_field_of_view` after `move_player` are left out. Each system is one sequential step. `spawn_entity` is not gated on the game state in the source either.
- Rendering: lyon shape building, colours, draw modes and the field-of-view path are left out. The polygon is a value with a side count, a size feature and a centre.
- Camera spawn: `OrthographicCameraBundle::new_2d` places the camera with engine defaults that are not part of this model. Only how `move_player` moves the camera is modelled.
- `cursor_grab_system` and `remove_player`: they only lock or unlock the window cursor and despawn.
- Windows and events: a `CursorMoved` event is a window id and a position, and windows are a map from id to size. `MovePlayer` requires the last event's window to exist, because the source unwraps that lookup and would panic otherwise.
- `MovePlayer` requires `border >= 0`, because `f32::clamp` panics when its lower bound exceeds its upper bound. The border is 500 (`game_plugin/src/lib.rs:37`).
- The entity transform is reduced to its translation, because neither entity system reads or writes its rotation or scale.
- The encounter logic, courage, levels, the UI, the menu, loading and audio are not in the modelled files: `PlayerState`, `LevelUpEvent` and `DyingEvent` are not defined in any of them.
- f32 rounding and NaN: reals are exact and no rounding property is stated.
