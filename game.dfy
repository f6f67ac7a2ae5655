/** The two per-frame player systems of the game, `handle_movement` and
    `confine_player`, and where `spawn_player` places the player. A player is
    an entity whose transform the systems update in place; the engine's query
    for it is the sequence of player transforms, which the systems act on only
    when it holds exactly one. */
module BallGame {
  import opened Vectors

  /** Distance units per second. */
  const PlayerSpeed: real := 500.0
  /** Width and height of the player's sprite. */
  const PlayerSize: real := 64.0
  const Half: real := PlayerSize / 2.0

  datatype Key = Left | Right | Up | Down

  /** The order in which the movement system polls the arrow keys. */
  const PollOrder: seq<Key> := [Left, Right, Up, Down]

  /** The unit axis vector that a pressed key adds to the direction. */
  function UnitStep(k: Key): IVec3 {
    match k
    case Left => NegUnitX
    case Right => UnitX
    case Up => UnitY
    case Down => NegUnitY
  }

  /** A key's unit step, counted the way `SumOfSteps` counts a sequence of
      keys. */
  lemma UnitStepCounts(k: Key)
    ensures UnitStep(k).x == multiset{k}[Right] as int - multiset{k}[Left] as int
    ensures UnitStep(k).y == multiset{k}[Up] as int - multiset{k}[Down] as int
    ensures UnitStep(k).z == 0
  {
  }

  /** The keys of `order` that are held down, in the order they are polled. */
  function PressedIn(order: seq<Key>, pressed: set<Key>): (p: seq<Key>)
    ensures forall k :: multiset(p)[k] == if k in pressed then multiset(order)[k] else 0
  {
    if order == [] then []
    else
      assert order == [order[0]] + order[1..];
      (if order[0] in pressed then [order[0]] else []) + PressedIn(order[1..], pressed)
  }

  /** The direction reached by adding the unit step of each key of `keys`,
      one after another, to the zero vector. */
  function SumOfSteps(keys: seq<Key>): (d: IVec3)
    ensures d.x == multiset(keys)[Right] as int - multiset(keys)[Left] as int
    ensures d.y == multiset(keys)[Up] as int - multiset(keys)[Down] as int
    ensures d.z == 0
  {
    if keys == [] then IZero
    else
      var init, k := keys[..|keys| - 1], keys[|keys| - 1];
      assert multiset(keys) == multiset(init) + multiset{k} by {
        assert keys == init + [k];
      }
      UnitStepCounts(k);
      SumOfSteps(init).Plus(UnitStep(k))
  }

  /** The net direction along one axis when its positive and its negative
      key may each be held. */
  function Axis(positive: bool, negative: bool): int {
    (if positive then 1 else 0) - (if negative then 1 else 0)
  }

  /** The direction of travel before normalisation, axis by axis. Each
      component is -1, 0 or 1, and a pair of opposing keys cancels on its
      axis. */
  function KeyDirection(pressed: set<Key>): (d: IVec3)
    ensures IsPlanarStep(d)
    ensures Left in pressed && Right in pressed ==> d.x == 0
    ensures Up in pressed && Down in pressed ==> d.y == 0
  {
    IVec3(Axis(Right in pressed, Left in pressed), Axis(Up in pressed, Down in pressed), 0)
  }

  /** The axis-by-axis direction is the sum of the unit steps of the held
      arrow keys, added in the order they are polled. */
  lemma {:induction false} KeyDirectionIsSumOfSteps(pressed: set<Key>)
    ensures KeyDirection(pressed) == SumOfSteps(PressedIn(PollOrder, pressed))
  {
    var p := PressedIn(PollOrder, pressed);
    forall k: Key
      ensures multiset(p)[k] == if k in pressed then 1 else 0
    {
      PolledOnce(k);
    }
    SumOfHeldKeys(p, pressed);
  }

  /** Adding the unit steps of a sequence that holds each held key once, and
      no other key, gives the axis-by-axis direction. */
  lemma SumOfHeldKeys(p: seq<Key>, pressed: set<Key>)
    requires forall k: Key :: multiset(p)[k] == if k in pressed then 1 else 0
    ensures SumOfSteps(p) == KeyDirection(pressed)
  {
    var m := multiset(p);
    assert m[Right] as int - m[Left] as int == Axis(Right in pressed, Left in pressed);
    assert m[Up] as int - m[Down] as int == Axis(Up in pressed, Down in pressed);
  }

  /** Every arrow key is polled exactly once per frame. */
  lemma PolledOnce(k: Key)
    ensures multiset(PollOrder)[k] == 1
  {
    assert multiset(PollOrder) == multiset{Left, Right, Up, Down};
  }

  /** How far the player moves in one frame of `dt` seconds: the normalised
      key direction at `PlayerSpeed`. It never leaves the plane. (Over the
      reals, scaling by the speed and then by `dt` is scaling by their
      product.) */
  function Displacement(pressed: set<Key>, dt: real): (v: Vec3)
    ensures v.z == 0.0
    ensures dt == 0.0 ==> v == Zero
  {
    Scale(PlayerSpeed * dt, NormalizeOrZero(KeyDirection(pressed)))
  }

  /** With no key held, or only opposing keys held, the player stays put. */
  lemma StillWhenBalanced(pressed: set<Key>, dt: real)
    requires Left in pressed <==> Right in pressed
    requires Up in pressed <==> Down in pressed
    ensures KeyDirection(pressed) == IZero
    ensures Displacement(pressed, dt) == Zero
  {
  }

  /** In a frame of positive length, the player moves along each axis in the
      direction of the net key press on that axis, and not at all on an axis
      whose keys are both released or both held. */
  lemma {:induction false} DisplacementSign(pressed: set<Key>, dt: real)
    requires dt > 0.0
    ensures Sign(Displacement(pressed, dt).x) == Axis(Right in pressed, Left in pressed)
    ensures Sign(Displacement(pressed, dt).y) == Axis(Up in pressed, Down in pressed)
    ensures Displacement(pressed, dt).z == 0.0
  {
    ScalePreservesSign(PlayerSpeed * dt, NormalizeOrZero(KeyDirection(pressed)));
  }

  /** The player covers `PlayerSpeed * dt` per frame whenever a net direction
      is held, up to the rounding of the diagonal component on a diagonal,
      and never more. Without a net direction it stays put. */
  lemma {:induction false} DisplacementLength(pressed: set<Key>, dt: real)
    ensures KeyDirection(pressed) == IZero ==> Displacement(pressed, dt) == Zero
    ensures KeyDirection(pressed) != IZero ==>
      UnitLengthFloor * ((PlayerSpeed * dt) * (PlayerSpeed * dt))
        <= LengthSquared(Displacement(pressed, dt))
        <= (PlayerSpeed * dt) * (PlayerSpeed * dt)
  {
    var d := KeyDirection(pressed);
    if d != IZero {
      assert UnitLengthFloor * ((PlayerSpeed * dt) * (PlayerSpeed * dt))
               <= LengthSquared(Scale(PlayerSpeed * dt, NormalizeOrZero(d)))
               <= (PlayerSpeed * dt) * (PlayerSpeed * dt) by {
        ScaledNormalizedLength(PlayerSpeed * dt, d);
      }
    } else {
      assert NormalizeOrZero(d) == Zero;
    }
  }

  /** Along an axis the player covers exactly `PlayerSpeed * dt` per frame. */
  lemma {:induction false} AxisDisplacementLength(pressed: set<Key>, dt: real)
    requires KeyDirection(pressed) != IZero
    requires KeyDirection(pressed).x == 0 || KeyDirection(pressed).y == 0
    ensures LengthSquared(Displacement(pressed, dt)) == (PlayerSpeed * dt) * (PlayerSpeed * dt)
  {
    ScaledAxisLength(PlayerSpeed * dt, KeyDirection(pressed));
  }

  /** The size of the primary window. */
  datatype Window = Window(width: real, height: real)

  /** `v` limited to the interval from `lo` to `hi`. */
  function Clamp(v: real, lo: real, hi: real): (r: real)
    requires lo <= hi
    ensures lo <= r <= hi
    ensures lo <= v <= hi ==> r == v
    ensures v < lo ==> r == lo
    ensures v > hi ==> r == hi
  {
    if v < lo then lo else if v > hi then hi else v
  }

  /** One coordinate after the confinement checks of its axis: first raised
      to `Half` if at or below it, then lowered to `extent - Half` if at or
      above that. In a window too narrow for the sprite the second check
      wins, whatever the coordinate was. */
  function ConfinedCoord(v: real, extent: real): (r: real)
    ensures extent >= PlayerSize ==> r == Clamp(v, Half, extent - Half)
    ensures extent < PlayerSize ==> r == extent - Half
  {
    var raised := if v <= Half then Half else v;
    if raised >= extent - Half then extent - Half else raised
  }

  /** The player's whole sprite lies inside the window. */
  predicate InBounds(t: Vec3, window: Window) {
    Half <= t.x <= window.width - Half && Half <= t.y <= window.height - Half
  }

  /** A translation after confinement. */
  function Confined(t: Vec3, window: Window): (c: Vec3)
    ensures c.z == t.z
    ensures window.width >= PlayerSize && window.height >= PlayerSize ==> InBounds(c, window)
    ensures InBounds(t, window) ==> c == t
    ensures window.width < PlayerSize ==> c.x == window.width - Half
    ensures window.height < PlayerSize ==> c.y == window.height - Half
  {
    Vec3(ConfinedCoord(t.x, window.width), ConfinedCoord(t.y, window.height), t.z)
  }

  /** Confining twice is confining once. */
  lemma ConfineIdempotent(t: Vec3, window: Window)
    ensures Confined(Confined(t, window), window) == Confined(t, window)
  {
  }

  /** The checks on one axis never look at, nor change, the other
      coordinates. */
  lemma ConfineAxesIndependent(t: Vec3, u: Vec3, window: Window)
    ensures t.x == u.x ==> Confined(t, window).x == Confined(u, window).x
    ensures t.y == u.y ==> Confined(t, window).y == Confined(u, window).y
    ensures Confined(t, window).z == t.z
  {
  }

  /** The position, rotation and scale of an entity; the player systems
      read and write only its translation. */
  class Transform {
    var translation: Vec3

    constructor (translation: Vec3)
      ensures this.translation == translation
    {
      this.translation := translation;
    }
  }

  /** Spawns the player at the centre of the window, at depth 0. */
  method SpawnPlayer(window: Window) returns (player: Transform)
    ensures fresh(player)
    ensures player.translation == Vec3(window.width / 2.0, window.height / 2.0, 0.0)
  {
    player := new Transform(Vec3(window.width / 2.0, window.height / 2.0, 0.0));
  }

  /** A player spawned in a window large enough for its sprite starts out
      inside the bounds, so confinement leaves it where it is. */
  lemma SpawnInsideBounds(window: Window)
    requires window.width >= PlayerSize && window.height >= PlayerSize
    ensures InBounds(Vec3(window.width / 2.0, window.height / 2.0, 0.0), window)
    ensures Confined(Vec3(window.width / 2.0, window.height / 2.0, 0.0), window)
         == Vec3(window.width / 2.0, window.height / 2.0, 0.0)
  {
  }

  /** Polls the arrow keys in turn, adding the unit axis vector of each
      held key to a direction that starts at zero. */
  method PollDirection(pressed: set<Key>) returns (direction: IVec3)
    ensures direction == KeyDirection(pressed)
  {
    direction := IZero;
    if Left in pressed {
      direction := direction.Plus(NegUnitX);
    }
    if Right in pressed {
      direction := direction.Plus(UnitX);
    }
    if Up in pressed {
      direction := direction.Plus(UnitY);
    }
    if Down in pressed {
      direction := direction.Plus(NegUnitY);
    }
  }

  /** The movement system for a frame of `dt` seconds with the keys
      `pressed` held. It moves the one player, and does nothing unless
      exactly one player exists. */
  method HandleMovement(players: seq<Transform>, pressed: set<Key>, dt: real)
    modifies players
    ensures |players| != 1 ==> unchanged(players)
    ensures |players| == 1 ==>
      players[0].translation == old(players[0].translation).Plus(Displacement(pressed, dt))
  {
    if |players| != 1 {
      return;
    }
    var player := players[0];

    var direction := PollDirection(pressed);
    player.translation :=
      player.translation.Plus(Scale(PlayerSpeed * dt, NormalizeOrZero(direction)));
  }

  /** The confinement system: keeps the one player's sprite inside the
      window, and does nothing unless exactly one player exists. */
  method ConfinePlayer(players: seq<Transform>, window: Window)
    modifies players
    ensures |players| != 1 ==> unchanged(players)
    ensures |players| == 1 ==>
      players[0].translation == Confined(old(players[0].translation), window)
  {
    if |players| != 1 {
      return;
    }
    var player := players[0];

    if player.translation.x <= Half {
      player.translation := player.translation.(x := Half);
    }
    if player.translation.x >= window.width - Half {
      player.translation := player.translation.(x := window.width - Half);
    }
    if player.translation.y <= Half {
      player.translation := player.translation.(y := Half);
    }
    if player.translation.y >= window.height - Half {
      player.translation := player.translation.(y := window.height - Half);
    }
  }
}
