/** The player: its movement from the input vector, clamped to the world
    border; the cursor offset it faces; the camera that follows it; and the
    field-of-view cone that copies its position and rotation. */
module Player {
  import opened World

  /** The player's speed in units per second. */
  const Speed: real := 150.0

  /** Where the player is spawned: the origin, drawn at depth 1. */
  const PlayerSpawn: Vec3 := Vec3(0.0, 0.0, 1.0)

  /** Where the field-of-view cone is spawned: the origin, drawn at depth 2. */
  const FieldOfViewSpawn: Vec3 := Vec3(0.0, 0.0, 2.0)

  /** A window's size in logical pixels. */
  datatype Window = Window(width: real, height: real)

  /** A CursorMoved event: the window it happened in and the cursor's position in it. */
  datatype CursorMoved = CursorMoved(window: nat, position: Vec2)

  /** The displacement of one tick: the input vector times speed times the
      elapsed seconds on x and y, nothing on z, and nothing at all without
      input. How it grows with the input and with time is stated by
      MovementPerSecond and MovementAdditive. */
  function Movement(input: Option<Vec2>, dt: real): (m: Vec3)
    ensures m.z == 0.0
    ensures input.None? ==> m == Zero3
  {
    match input
    case Some(v) => Vec3(v.x * Speed * dt, v.y * Speed * dt, 0.0)
    case None => Zero3
  }

  /** In one second the player moves 150 times its input vector. */
  lemma MovementPerSecond(v: Vec2)
    ensures Movement(Some(v), 1.0) == Vec3(150.0 * v.x, 150.0 * v.y, 0.0)
  {
  }

  /** Movement is proportional to the elapsed time: two ticks of dt1 and dt2
      displace as far as one tick of dt1 + dt2. */
  lemma MovementAdditive(input: Option<Vec2>, dt1: real, dt2: real)
    ensures Movement(input, dt1 + dt2) == Add(Movement(input, dt1), Movement(input, dt2))
  {
  }

  /** The cursor's offset from the centre of its window: zero exactly when
      the cursor is at the centre. */
  function CursorOffset(position: Vec2, window: Window): (offset: Vec2)
    ensures offset == Zero2 <==> position == Vec2(window.width / 2.0, window.height / 2.0)
  {
    Sub2(position, Half(Vec2(window.width, window.height)))
  }

  /** The offset is measured from the window's centre: the centre has offset
      zero, and adding half the window size to the offset gives the position back. */
  lemma CursorOffsetFromCentre(position: Vec2, window: Window)
    ensures CursorOffset(Vec2(window.width / 2.0, window.height / 2.0), window) == Zero2
    ensures CursorOffset(position, window).x + window.width / 2.0 == position.x
    ensures CursorOffset(position, window).y + window.height / 2.0 == position.y
  {
  }

  /** Both x and y lie in [-border, border]. */
  predicate InsideBorder(t: Vec3, border: real) {
    -border <= t.x <= border && -border <= t.y <= border
  }

  /** The new translation of the player: the displacement is added, then x
      and y are clamped to the border. The result is inside the border,
      z moves with the displacement only, and on each axis the result is the
      unclamped sum whenever that sum is inside the border. */
  function ClampedStep(t: Vec3, m: Vec3, border: real): (r: Vec3)
    requires border >= 0.0
    ensures InsideBorder(r, border)
    ensures r.z == t.z + m.z
    ensures -border <= t.x + m.x <= border ==> r.x == t.x + m.x
    ensures -border <= t.y + m.y <= border ==> r.y == t.y + m.y
  {
    var moved := Add(t, m);
    Vec3(Clamp(moved.x, -border, border), Clamp(moved.y, -border, border), moved.z)
  }

  /** A player inside the border that receives no input stays where it is. */
  lemma IdleKeepsPlace(t: Vec3, dt: real, border: real)
    requires border >= 0.0 && InsideBorder(t, border)
    ensures ClampedStep(t, Movement(None, dt), border) == t
  {
  }

  /** A move that would overshoot the border on an axis stops exactly on the
      border of that axis: clamping happens after the add. */
  lemma OvershootStopsOnBorder(t: Vec3, m: Vec3, border: real)
    requires border >= 0.0
    ensures t.x + m.x > border ==> ClampedStep(t, m, border).x == border
    ensures t.x + m.x < -border ==> ClampedStep(t, m, border).x == -border
    ensures t.y + m.y > border ==> ClampedStep(t, m, border).y == border
    ensures t.y + m.y < -border ==> ClampedStep(t, m, border).y == -border
  {
  }

  /** One tick's input: the movement vector, if any, and the elapsed seconds. */
  datatype Input = Input(movement: Option<Vec2>, dt: real)

  /** The player's translation after a run of ticks: inside the border once
      at least one tick has run. */
  function Walk(t: Vec3, inputs: seq<Input>, border: real): (r: Vec3)
    requires border >= 0.0
    decreases inputs
    ensures inputs != [] ==> InsideBorder(r, border)
  {
    if inputs == [] then t
    else Walk(ClampedStep(t, Movement(inputs[0].movement, inputs[0].dt), border), inputs[1..], border)
  }

  /** Over any run of ticks the player's height never changes, and a player
      that starts inside the border (or takes at least one step) ends inside it. */
  lemma {:induction false} WalkKeepsHeightAndBorder(t: Vec3, inputs: seq<Input>, border: real)
    requires border >= 0.0
    decreases inputs
    ensures Walk(t, inputs, border).z == t.z
    ensures InsideBorder(t, border) || inputs != [] ==> InsideBorder(Walk(t, inputs, border), border)
  {
    if inputs != [] {
      var next := ClampedStep(t, Movement(inputs[0].movement, inputs[0].dt), border);
      WalkKeepsHeightAndBorder(next, inputs[1..], border);
    }
  }

  /** From its spawn point the player stays at depth 1 and inside the world border. */
  lemma SpawnedPlayerStaysInWorld(inputs: seq<Input>)
    ensures Walk(PlayerSpawn, inputs, Border).z == 1.0
    ensures InsideBorder(Walk(PlayerSpawn, inputs, Border), Border)
  {
    WalkKeepsHeightAndBorder(PlayerSpawn, inputs, Border);
  }

  /** The CursorPosition resource: the cursor's offset from the window centre, at first zero. */
  class CursorPosition {
    var position: Vec2

    constructor ()
      ensures position == Zero2
    {
      position := Zero2;
    }
  }

  /** spawn_player: the player's transform starts at PlayerSpawn. */
  method SpawnPlayer() returns (player: Transform)
    ensures fresh(player)
    ensures player.translation == PlayerSpawn && player.rotation == Identity
  {
    player := new Transform.FromTranslation(PlayerSpawn);
  }

  /** spawn_field_of_view: the cone's transform starts at FieldOfViewSpawn. */
  method SpawnFieldOfView() returns (cone: Transform)
    ensures fresh(cone)
    ensures cone.translation == FieldOfViewSpawn && cone.rotation == Identity
  {
    cone := new Transform.FromTranslation(FieldOfViewSpawn);
  }

  /** move_player. The cursor offset is taken from the last CursorMoved event,
      if one arrived (the event's window must exist: the source unwraps it),
      and is otherwise kept. Each player takes the clamped step and turns
      towards the cursor; the cameras are then put on the player, so they end
      on the last player's translation. */
  method MovePlayer(
    input: Option<Vec2>, dt: real, border: real,
    events: seq<CursorMoved>, windows: map<nat, Window>,
    cursor: CursorPosition, players: seq<Transform>, cameras: seq<Transform>)
    requires border >= 0.0
    requires events != [] ==> events[|events| - 1].window in windows
    requires Distinct(players) && Distinct(cameras) && Disjoint(players, cameras)
    modifies cursor, set p | p in players, set c | c in cameras
    ensures events != [] ==>
      cursor.position == CursorOffset(events[|events| - 1].position, windows[events[|events| - 1].window])
    ensures events == [] ==> cursor.position == old(cursor.position)
    ensures forall i :: 0 <= i < |players| ==>
      players[i].translation == ClampedStep(old(players[i].translation), Movement(input, dt), border)
    ensures forall i :: 0 <= i < |players| ==> InsideBorder(players[i].translation, border)
    ensures forall i :: 0 <= i < |players| ==> players[i].translation.z == old(players[i].translation.z)
    ensures forall i :: 0 <= i < |players| ==> players[i].rotation == TowardCursor(cursor.position)
    ensures players != [] ==> forall k :: 0 <= k < |cameras| ==> cameras[k].translation == players[|players| - 1].translation
    ensures players == [] ==> forall k :: 0 <= k < |cameras| ==> cameras[k].translation == old(cameras[k].translation)
    ensures forall k :: 0 <= k < |cameras| ==> cameras[k].rotation == old(cameras[k].rotation)
  {
    var movement := Movement(input, dt);
    if events != [] {
      var last := events[|events| - 1];
      var window := windows[last.window];
      cursor.position := Sub2(last.position, Half(Vec2(window.width, window.height)));
    }
    ghost var facing := cursor.position;
    var i := 0;
    while i < |players|
      invariant 0 <= i <= |players|
      invariant cursor.position == facing
      invariant forall j :: 0 <= j < i ==>
        players[j].translation == ClampedStep(old(players[j].translation), movement, border)
        && players[j].rotation == TowardCursor(cursor.position)
      invariant forall j :: i <= j < |players| ==> unchanged(players[j])
      invariant i > 0 ==> forall k :: 0 <= k < |cameras| ==> cameras[k].translation == players[i - 1].translation
      invariant i == 0 ==> forall k :: 0 <= k < |cameras| ==> cameras[k].translation == old(cameras[k].translation)
      invariant forall k :: 0 <= k < |cameras| ==> cameras[k].rotation == old(cameras[k].rotation)
    {
      var player := players[i];
      var moved := Add(player.translation, movement);
      moved := moved.(x := Clamp(moved.x, -border, border));
      moved := moved.(y := Clamp(moved.y, -border, border));
      player.translation := moved;
      player.rotation := TowardCursor(cursor.position);
      PutCamerasOn(cameras, moved);
      i := i + 1;
    }
  }

  /** The inner loop of move_player: every camera takes the given translation
      and keeps its rotation. */
  method PutCamerasOn(cameras: seq<Transform>, translation: Vec3)
    modifies set c | c in cameras
    ensures forall k :: 0 <= k < |cameras| ==> cameras[k].translation == translation
    ensures forall k :: 0 <= k < |cameras| ==> cameras[k].rotation == old(cameras[k].rotation)
  {
    var k := 0;
    while k < |cameras|
      invariant 0 <= k <= |cameras|
      invariant forall j :: 0 <= j < k ==> cameras[j].translation == translation
      invariant forall j :: 0 <= j < |cameras| ==> cameras[j].rotation == old(cameras[j].rotation)
    {
      cameras[k].translation := translation;
      k := k + 1;
    }
  }

  /** move_field_of_view: every cone takes the player's x and y at depth 0
      and the player's rotation; the players are only read. */
  method MoveFieldOfView(players: seq<Transform>, cones: seq<Transform>)
    requires Disjoint(players, cones)
    modifies set c | c in cones
    ensures players != [] ==> forall c :: c in cones ==>
      c.translation == Vec3(players[|players| - 1].translation.x, players[|players| - 1].translation.y, 0.0)
      && c.rotation == players[|players| - 1].rotation
    ensures players == [] ==> forall c :: c in cones ==> unchanged(c)
  {
    var i := 0;
    while i < |players|
      invariant 0 <= i <= |players|
      invariant i > 0 ==> forall c :: c in cones ==>
        c.translation == Vec3(players[i - 1].translation.x, players[i - 1].translation.y, 0.0)
        && c.rotation == players[i - 1].rotation
      invariant i == 0 ==> forall c :: c in cones ==> unchanged(c)
    {
      var player := players[i];
      var k := 0;
      while k < |cones|
        invariant 0 <= k <= |cones|
        invariant forall j :: 0 <= j < k ==>
          cones[j].translation == Vec3(player.translation.x, player.translation.y, 0.0)
          && cones[j].rotation == player.rotation
      {
        cones[k].translation := Vec3(player.translation.x, player.translation.y, 0.0);
        cones[k].rotation := player.rotation;
        k := k + 1;
      }
      i := i + 1;
    }
  }
}
