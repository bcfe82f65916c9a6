/**
 * The world logic of valorant_background_movable.py: a camera that follows
 * the player but never shows anything outside the 4000 x 3000 world, the
 * parallax mapping from world to screen, the wall layout with its cleared
 * start region, the player's move that slides along walls, and the bullets
 * that die on walls, on running out of life, or on leaving the world.
 *
 * The random wall layout, the keyboard, the mouse, `dt` and the square roots
 * (`1 / sqrt(2)` and `math.hypot`) are parameters.
 */
module Explorer {
  import opened Common

  const SCREEN_W: real := 1280.0
  const SCREEN_H: real := 720.0
  const WORLD_W: real := 4000.0
  const WORLD_H: real := 3000.0
  const PLAYER_SPEED: real := 380.0
  const BULLET_SPEED: real := 1200.0
  const PLAYER_R: real := 16.0
  /** Seconds a bullet lives. */
  const BULLET_LIFE: real := 2.5
  /** The region around the start point that holds no wall. */
  const START: Rect := Rect(0.0, 0.0, 600.0, 600.0)

  // ---------------------------------------------------------------------------
  // Camera
  // ---------------------------------------------------------------------------

  /**
   * The camera offset along one axis: centred on the target, clamped so the
   * view of width `view` stays inside a world of width `size`.
   */
  function Follow(target: real, size: real, view: real): (r: real)
    ensures view <= size ==> 0.0 <= r <= size - view
    ensures 0.0 <= target - view / 2.0 <= size - view ==> r == target - view / 2.0
  {
    Clamp(target - view / 2.0, 0.0, size - view)
  }

  /** A target inside the world is always on screen: it lies within the view the camera follows with. */
  lemma FollowKeepsTargetInView(target: real, size: real, view: real)
    requires 0.0 <= view <= size && 0.0 <= target <= size
    ensures 0.0 <= target - Follow(target, size, view) <= view
  {
    var c := target - view / 2.0;
    if c < 0.0 {
      assert Follow(target, size, view) == 0.0;
    } else if c > size - view {
      assert Follow(target, size, view) == size - view;
    }
  }

  /** `int(v)`: the real truncated toward zero. */
  function Truncate(v: real): (r: int)
    ensures v >= 0.0 ==> r as real <= v < r as real + 1.0
    ensures v < 0.0 ==> r as real - 1.0 < v <= r as real
  {
    if v >= 0.0 then v.Floor else -((-v).Floor)
  }

  class Camera {
    const w: real
    const h: real
    var x: real
    var y: real

    /** A camera over a `w` x `h` world, at the origin. */
    constructor (w: real, h: real)
      ensures this.w == w && this.h == h && x == 0.0 && y == 0.0
    {
      this.w, this.h := w, h;
      x, y := 0.0, 0.0;
    }

    /** `Camera.update`: follow the target, without showing anything outside the world. */
    method Update(targetX: real, targetY: real)
      modifies this
      ensures x == Follow(targetX, w, SCREEN_W) && y == Follow(targetY, h, SCREEN_H)
      ensures SCREEN_W <= w ==> 0.0 <= x <= w - SCREEN_W
      ensures SCREEN_H <= h ==> 0.0 <= y <= h - SCREEN_H
    {
      x := Max(0.0, Min(w - SCREEN_W, targetX - SCREEN_W / 2.0));
      y := Max(0.0, Min(h - SCREEN_H, targetY - SCREEN_H / 2.0));
    }

    /**
     * `world_to_screen`: a far layer (`parallax < 1`) moves less than the
     * ground; coordinates are cut to integers toward zero.
     */
    function WorldToScreen(wx: real, wy: real, parallax: real): (r: (int, int))
      reads this
      ensures parallax == 1.0 ==> r == (Truncate(wx - x), Truncate(wy - y))
      ensures parallax == 0.0 ==> r == (640, 360)
    {
      var sx := (wx - x) * parallax + (1.0 - parallax) * (SCREEN_W / 2.0);
      var sy := (wy - y) * parallax + (1.0 - parallax) * (SCREEN_H / 2.0);
      assert parallax == 0.0 ==> sx == 640.0 && sy == 360.0;
      assert parallax == 1.0 ==> sx == wx - x && sy == wy - y;
      (Truncate(sx), Truncate(sy))
    }
  }

  /**
   * After the camera follows a player inside the world, the player is drawn
   * on screen.
   */
  lemma PlayerOnScreen(c: Camera, px: real, py: real)
    requires SCREEN_W <= c.w && SCREEN_H <= c.h && 0.0 <= px <= c.w && 0.0 <= py <= c.h
    requires c.x == Follow(px, c.w, SCREEN_W) && c.y == Follow(py, c.h, SCREEN_H)
    ensures var s := c.WorldToScreen(px, py, 1.0); 0 <= s.0 <= 1280 && 0 <= s.1 <= 720
  {
    FollowKeepsTargetInView(px, c.w, SCREEN_W);
    FollowKeepsTargetInView(py, c.h, SCREEN_H);
  }

  // ---------------------------------------------------------------------------
  // Walls
  // ---------------------------------------------------------------------------

  /** A wall is kept when it stays out of the start region. */
  predicate Clear(w: Rect)
  {
    !w.Overlaps(START)
  }

  /** The start-region filter: drop every wall that overlaps the start region. */
  function ClearStart(walls: seq<Rect>): (r: seq<Rect>)
    ensures forall i :: 0 <= i < |r| ==> !r[i].Overlaps(START)
    ensures forall i :: 0 <= i < |walls| && !walls[i].Overlaps(START) ==> walls[i] in r
  {
    Filter(walls, Clear)
  }

  /** The filter only drops walls: the remaining ones keep their order. */
  lemma ClearStartKeepsOrder(walls: seq<Rect>)
    ensures SubsequenceOf(ClearStart(walls), walls)
  {
    FilterKeepsOrder(walls, Clear);
  }

  /** The start point (300, 300) is free of walls once the start region is cleared. */
  lemma StartIsClear(layout: seq<Rect>)
    ensures !AnyOverlap(Body(300.0, 300.0), ClearStart(layout))
  {
    var walls := ClearStart(layout);
    forall k | 0 <= k < |walls|
      ensures !walls[k].Overlaps(Body(300.0, 300.0))
    {
      assert !walls[k].Overlaps(START);
    }
  }

  /** The player, a circle of radius 16, tested as its bounding square. */
  function Body(x: real, y: real): Rect
  {
    Box(x, y, PLAYER_R)
  }

  /** `collides_walls(rect)`: whether any wall overlaps `rect`. */
  method CollidesWalls(rect: Rect, walls: seq<Rect>) returns (hit: bool)
    ensures hit <==> AnyOverlap(rect, walls)
  {
    for k := 0 to |walls|
      invariant forall j :: 0 <= j < k ==> !walls[j].Overlaps(rect)
    {
      if rect.Overlaps(walls[k]) {
        assert walls[k].Overlaps(rect);
        return true;
      }
    }
    return false;
  }

  // ---------------------------------------------------------------------------
  // Moving the player
  // ---------------------------------------------------------------------------

  /** The movement keys held: W/up, S/down, A/left, D/right. */
  datatype Keys = Keys(up: bool, down: bool, left: bool, right: bool)

  function Axis(minus: bool, plus: bool): real
  {
    (if plus then 1.0 else 0.0) - (if minus then 1.0 else 0.0)
  }

  datatype Vec = Vec(x: real, y: real)

  /**
   * The tentative position: the input, scaled by `inv` (the 1 / sqrt(2) the
   * source uses) when it is diagonal, times speed and `dt`.
   */
  function Tentative(p: Vec, keys: Keys, inv: real, dt: real): (r: Vec)
    requires inv > 0.0 && 2.0 * inv * inv == 1.0
    ensures Axis(keys.left, keys.right) == 0.0 && Axis(keys.up, keys.down) == 0.0 ==> r == p
    ensures Axis(keys.left, keys.right) != 0.0 || Axis(keys.up, keys.down) != 0.0 ==>
      (r.x - p.x) * (r.x - p.x) + (r.y - p.y) * (r.y - p.y) == (PLAYER_SPEED * dt) * (PLAYER_SPEED * dt)
  {
    var mx, my := Axis(keys.left, keys.right), Axis(keys.up, keys.down);
    var step := PLAYER_SPEED * dt;
    if mx != 0.0 && my != 0.0 then
      assert (mx * inv * step) * (mx * inv * step) == (inv * inv) * (step * step);
      assert (my * inv * step) * (my * inv * step) == (inv * inv) * (step * step);
      Vec(p.x + mx * inv * step, p.y + my * inv * step)
    else
      Vec(p.x + mx * step, p.y + my * step)
  }

  /**
   * The slide rule: take the whole move if the body is free there, else the
   * x part alone, else the y part alone, else stay.
   */
  function Slide(p: Vec, n: Vec, walls: seq<Rect>): (r: Vec)
    ensures r == n || r == Vec(n.x, p.y) || r == Vec(p.x, n.y) || r == p
    ensures r == n <== !AnyOverlap(Body(n.x, n.y), walls)
    ensures r != p ==> !AnyOverlap(Body(r.x, r.y), walls)
    ensures AnyOverlap(Body(n.x, n.y), walls) ==> r.x == p.x || r.y == p.y
    ensures AnyOverlap(Body(n.x, n.y), walls) && !AnyOverlap(Body(n.x, p.y), walls) ==> r == Vec(n.x, p.y)
    ensures AnyOverlap(Body(n.x, n.y), walls) && AnyOverlap(Body(n.x, p.y), walls) ==>
      (r == Vec(p.x, n.y) <== !AnyOverlap(Body(p.x, n.y), walls))
    ensures AnyOverlap(Body(n.x, n.y), walls) && AnyOverlap(Body(n.x, p.y), walls) ==>
      (r == p <== AnyOverlap(Body(p.x, n.y), walls))
  {
    if !AnyOverlap(Body(n.x, n.y), walls) then n
    else if !AnyOverlap(Body(n.x, p.y), walls) then Vec(n.x, p.y)
    else if !AnyOverlap(Body(p.x, n.y), walls) then Vec(p.x, n.y)
    else p
  }

  /** A player clear of every wall stays clear, however it moves. */
  lemma SlideStaysClear(p: Vec, n: Vec, walls: seq<Rect>)
    requires !AnyOverlap(Body(p.x, p.y), walls)
    ensures var r := Slide(p, n, walls); !AnyOverlap(Body(r.x, r.y), walls)
  {
  }

  /** A bullet: position, velocity, and the seconds it has left. */
  datatype Shot = Shot(x: real, y: real, vx: real, vy: real, life: real)

  /** One frame of a bullet's flight. */
  function Fly(b: Shot, dt: real): (r: Shot)
    ensures r.life == b.life - dt && r.vx == b.vx && r.vy == b.vy
  {
    Shot(b.x + b.vx * dt, b.y + b.vy * dt, b.vx, b.vy, b.life - dt)
  }

  /** A bullet's 6x6 rectangle hits a wall, its life is over, or it left the world. */
  predicate Spent(b: Shot, walls: seq<Rect>)
  {
    AnyOverlap(Box(b.x, b.y, 3.0), walls) || b.life <= 0.0 ||
    b.x < 0.0 || b.x > WORLD_W || b.y < 0.0 || b.y > WORLD_H
  }

  /** The bullets that fly on after one frame, in list order. */
  function Flying(bs: seq<Shot>, walls: seq<Rect>, dt: real): (r: seq<Shot>)
    ensures |r| <= |bs|
    decreases |bs|
  {
    if bs == [] then []
    else
      var b := Fly(bs[|bs| - 1], dt);
      Flying(bs[..|bs| - 1], walls, dt) + if Spent(b, walls) then [] else [b]
  }

  /** The bullets moved by `dt`. */
  function Flown(bs: seq<Shot>, dt: real): seq<Shot>
  {
    Map(bs, (b: Shot) => Fly(b, dt))
  }

  /**
   * The bullet loop moves every bullet and removes exactly the spent ones:
   * what is left is the moved list with the spent bullets taken out.
   */
  lemma {:induction false} FlyingFilter(bs: seq<Shot>, walls: seq<Rect>, dt: real)
    ensures Flying(bs, walls, dt) == Filter(Flown(bs, dt), (b: Shot) => !Spent(b, walls))
    decreases |bs|
  {
    if bs != [] {
      var n := |bs| - 1;
      FlyingFilter(bs[..n], walls, dt);
      assert bs == bs[..n] + [bs[n]];
      MapSnoc(bs[..n], bs[n], (b: Shot) => Fly(b, dt));
      FilterSnoc(Flown(bs[..n], dt), Fly(bs[n], dt), (b: Shot) => !Spent(b, walls));
    }
  }

  /** The surviving bullets keep their order, and each one is live, inside the world and clear of every wall. */
  lemma FlyingKeepsOrder(bs: seq<Shot>, walls: seq<Rect>, dt: real)
    ensures var r := Flying(bs, walls, dt);
      SubsequenceOf(r, Flown(bs, dt)) && forall i :: 0 <= i < |r| ==> !Spent(r[i], walls)
  {
    FlyingFilter(bs, walls, dt);
    FilterKeepsOrder(Flown(bs, dt), (b: Shot) => !Spent(b, walls));
  }

  // ---------------------------------------------------------------------------
  // The world
  // ---------------------------------------------------------------------------

  class World {
    const camera: Camera
    const walls: seq<Rect>
    var x: real
    var y: real
    var bullets: seq<Shot>

    /**
     * The world with a random wall layout `layout` (cleared around the
     * start), the player at (300, 300), no bullets and the camera at the
     * origin.
     */
    constructor (layout: seq<Rect>)
      ensures walls == ClearStart(layout) && x == 300.0 && y == 300.0 && bullets == []
      ensures fresh(camera) && camera.w == WORLD_W && camera.h == WORLD_H
      ensures !AnyOverlap(Body(x, y), walls)
    {
      camera := new Camera(WORLD_W, WORLD_H);
      walls := ClearStart(layout);
      x, y := 300.0, 300.0;
      bullets := [];
      new;
      StartIsClear(layout);
    }

    /**
     * A left click: a bullet leaves the player toward the mouse at
     * `BULLET_SPEED`, with 2.5 seconds to live; `dist` is the distance to
     * the mouse's world point, or 1 when that is the player's own position.
     */
    method Shoot(mouseX: real, mouseY: real, dist: real)
      requires var dx, dy := camera.x + mouseX - x, camera.y + mouseY - y;
        if dx == 0.0 && dy == 0.0 then dist == 1.0 else dist > 0.0 && dist * dist == dx * dx + dy * dy
      modifies this`bullets
      ensures |bullets| == |old(bullets)| + 1 && bullets[..|old(bullets)|] == old(bullets)
      ensures var b := bullets[|old(bullets)|];
        b.x == x && b.y == y && b.life == BULLET_LIFE &&
        b.vx * dist == (camera.x + mouseX - x) * BULLET_SPEED && b.vy * dist == (camera.y + mouseY - y) * BULLET_SPEED
    {
      var dx := camera.x + mouseX - x;
      var dy := camera.y + mouseY - y;
      bullets := bullets + [Shot(x, y, dx / dist * BULLET_SPEED, dy / dist * BULLET_SPEED, BULLET_LIFE)];
    }

    /** The player's move for one frame: the tentative move, then the slide rule against the walls. */
    method Move(keys: Keys, inv: real, dt: real)
      requires inv > 0.0 && 2.0 * inv * inv == 1.0
      modifies this`x, this`y
      ensures Vec(x, y) == Slide(Vec(old(x), old(y)), Tentative(Vec(old(x), old(y)), keys, inv, dt), walls)
    {
      var moveX, moveY := Axis(keys.left, keys.right), Axis(keys.up, keys.down);
      if moveX != 0.0 && moveY != 0.0 {
        moveX, moveY := moveX * inv, moveY * inv;
      }
      var newX := x + moveX * PLAYER_SPEED * dt;
      var newY := y + moveY * PLAYER_SPEED * dt;
      assert Vec(newX, newY) == Tentative(Vec(x, y), keys, inv, dt);
      var blocked := CollidesWalls(Body(newX, newY), walls);
      if !blocked {
        x, y := newX, newY;
      } else {
        var blockedX := CollidesWalls(Body(newX, y), walls);
        var blockedY := CollidesWalls(Body(x, newY), walls);
        if !blockedX {
          x := newX;
        } else if !blockedY {
          y := newY;
        }
      }
    }

    /** The state of the bullet loop after the first `i` of `shots`, the next one at `pos`. */
    ghost predicate Sweeping(shots: seq<Shot>, dt: real, i: nat, pos: nat)
      reads this
    {
      i <= |shots| && pos == |Flying(shots[..i], walls, dt)| &&
      bullets == Flying(shots[..i], walls, dt) + shots[i..]
    }

    /** The bullet loop: every bullet flies for `dt`, and the spent ones are removed. */
    method UpdateBullets(dt: real)
      modifies this`bullets
      ensures bullets == Flying(old(bullets), walls, dt)
    {
      var shots := bullets;
      var pos := 0;
      for i := 0 to |shots|
        invariant Sweeping(shots, dt, i, pos)
      {
        pos := Advance(shots, dt, i, pos);
      }
      assert shots[..|shots|] == shots;
    }

    /** The loop body for bullet `i`: move it in place, then remove it if it is spent. */
    method Advance(shots: seq<Shot>, dt: real, i: nat, pos: nat) returns (next: nat)
      requires i < |shots| && Sweeping(shots, dt, i, pos)
      modifies this`bullets
      ensures Sweeping(shots, dt, i + 1, next)
    {
      ghost var done := Flying(shots[..i], walls, dt);
      assert shots[..i + 1][..i] == shots[..i];
      assert bullets[pos] == shots[i] && bullets[pos + 1..] == shots[i + 1..] by {
        assert shots[i..] == [shots[i]] + shots[i + 1..];
      }
      var b := Fly(bullets[pos], dt);
      bullets := bullets[pos := b];
      var hit := CollidesWalls(Box(b.x, b.y, 3.0), walls);
      if hit || b.life <= 0.0 || b.x < 0.0 || b.x > WORLD_W || b.y < 0.0 || b.y > WORLD_H {
        bullets := bullets[..pos] + bullets[pos + 1..];
        assert bullets == done + shots[i + 1..];
        next := pos;
      } else {
        assert bullets == (done + [b]) + shots[i + 1..];
        next := pos + 1;
      }
    }
  }
}
