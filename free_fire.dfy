/**
 * The combat bookkeeping of freefire2.py: the player's movement, fire
 * cooldown and ammo (with 9999 standing for "unlimited"), weapon switching,
 * bullets flying off the padded screen, enemy spawning, player bullets
 * wounding enemies, enemy kill rewards, pickups, and the pause on death.
 *
 * Keyboard state, the mouse-derived aim and muzzle point, sprite rectangles
 * (which pygame recomputes from rotated images) and every random draw are
 * parameters. The square root behind `Vector2.normalize` is the parameter
 * `norm`, tied to the input vector by a precondition.
 */
module FreeFire {
  import opened Common

  const SCREEN_W: real := 1280.0
  const SCREEN_H: real := 720.0
  /** Player speed in pixels per second. */
  const SPEED: real := 360.0
  /** The ammo count that stands for "unlimited". */
  const INFINITE: int := 9999
  const HEALTH_CAP: int := 200
  /** How far past the screen edge a bullet may fly. */
  const PADDING: real := 300.0
  const PISTOL: string := "pistol"
  const RIFLE: string := "rifle"

  /** A weapon entry `[fire_rate_sec, damage, bullet_speed, ammo]`. */
  datatype Weapon = Weapon(rate: real, damage: int, speed: real, ammo: int)

  /** The two weapons a player starts (and restarts) with. */
  const ARSENAL: map<string, Weapon> :=
    map[PISTOL := Weapon(0.18, 18, 1200.0, INFINITE), RIFLE := Weapon(0.09, 9, 1600.0, 180)]

  datatype Vec = Vec(x: real, y: real)

  // ---------------------------------------------------------------------------
  // Firing and ammo
  // ---------------------------------------------------------------------------

  /**
   * The ammo one shot uses: a positive count drops by one unless it is the
   * unlimited sentinel; zero or less (and the sentinel) stay as they are.
   */
  function Spend(ammo: int): (r: int)
    ensures r == ammo || r == ammo - 1
    ensures r == ammo <==> ammo <= 0 || ammo == INFINITE
    ensures ammo >= 0 ==> r >= 0
  {
    if ammo > 0 && ammo != INFINITE then ammo - 1 else ammo
  }

  /** The cooldown and current weapon after a frame, and whether a shot left the barrel. */
  datatype Firing = Firing(cooldown: real, weapon: Weapon, fires: bool)

  /**
   * The firing part of `Player.update`: the cooldown runs down by `dt`; a
   * shot happens exactly when the trigger is held, the cooldown has run out
   * and the ammo is not zero, and then the cooldown restarts at the weapon's
   * rate and the shot is paid for.
   */
  function Fire(cooldown: real, w: Weapon, shooting: bool, dt: real): (r: Firing)
    ensures r.fires <==> shooting && cooldown - dt <= 0.0 && w.ammo != 0
    ensures r.fires ==> r.cooldown == w.rate && r.weapon == w.(ammo := Spend(w.ammo))
    ensures !r.fires ==> r.cooldown == cooldown - dt && r.weapon == w
  {
    var cd := cooldown - dt;
    if shooting && cd <= 0.0 && w.ammo != 0 then Firing(w.rate, w.(ammo := Spend(w.ammo)), true)
    else Firing(cd, w, false)
  }

  /** The trigger held or not, for one frame of `dt` seconds. */
  datatype Tick = Tick(shooting: bool, dt: real)

  /** Several frames of `Fire` on one weapon, counting the shots. */
  datatype Gun = Gun(cooldown: real, weapon: Weapon, shots: nat)

  function Burst(g: Gun, ticks: seq<Tick>): Gun
    decreases |ticks|
  {
    if ticks == [] then g
    else
      var h := Burst(g, ticks[..|ticks| - 1]);
      var t := ticks[|ticks| - 1];
      var f := Fire(h.cooldown, h.weapon, t.shooting, t.dt);
      Gun(f.cooldown, f.weapon, h.shots + if f.fires then 1 else 0)
  }

  /**
   * With a finite supply, every shot costs exactly one round and the supply
   * never goes below zero: it is the starting ammo minus the shots fired.
   */
  lemma {:induction false} BurstCountsAmmo(g: Gun, ticks: seq<Tick>)
    requires 0 <= g.weapon.ammo < INFINITE
    ensures var r := Burst(g, ticks);
      r.weapon.ammo == g.weapon.ammo - (r.shots - g.shots) && 0 <= r.weapon.ammo < INFINITE
    decreases |ticks|
  {
    if ticks != [] {
      BurstCountsAmmo(g, ticks[..|ticks| - 1]);
    }
  }

  /** The unlimited sentinel is never used up, whatever is fired. */
  lemma {:induction false} BurstKeepsSentinel(g: Gun, ticks: seq<Tick>)
    requires g.weapon.ammo == INFINITE
    ensures Burst(g, ticks).weapon.ammo == INFINITE
    decreases |ticks|
  {
    if ticks != [] {
      BurstKeepsSentinel(g, ticks[..|ticks| - 1]);
    }
  }

  // ---------------------------------------------------------------------------
  // Movement
  // ---------------------------------------------------------------------------

  /** The movement keys held: W/up, S/down, A/left, D/right. */
  datatype Keys = Keys(up: bool, down: bool, left: bool, right: bool)

  /** One axis of the input vector: +1, -1 or 0. */
  function Axis(minus: bool, plus: bool): int
  {
    (if plus then 1 else 0) - (if minus then 1 else 0)
  }

  /** `norm` is the length of a non-zero input vector. */
  predicate IsNorm(keys: Keys, norm: real)
  {
    var mx, my := Axis(keys.left, keys.right), Axis(keys.up, keys.down);
    (mx != 0 || my != 0) ==> norm > 0.0 && norm * norm == (mx * mx + my * my) as real
  }

  /**
   * The movement part of `Player.update`: with no key held the player stays
   * put; otherwise it moves `SPEED * dt` along the normalized input and is
   * clamped into the screen.
   */
  function Walk(p: Vec, keys: Keys, norm: real, dt: real): (r: Vec)
    requires IsNorm(keys, norm)
    ensures Axis(keys.left, keys.right) == 0 && Axis(keys.up, keys.down) == 0 ==> r == p
    ensures Axis(keys.left, keys.right) != 0 || Axis(keys.up, keys.down) != 0 ==>
      0.0 <= r.x <= SCREEN_W && 0.0 <= r.y <= SCREEN_H
  {
    var mx, my := Axis(keys.left, keys.right), Axis(keys.up, keys.down);
    if mx == 0 && my == 0 then p
    else
      var x := p.x + (mx as real / norm) * SPEED * dt;
      var y := p.y + (my as real / norm) * SPEED * dt;
      Vec(Clamp(x, 0.0, SCREEN_W), Clamp(y, 0.0, SCREEN_H))
  }

  /**
   * A step inside the screen is not clamped: the player moves along the
   * input vector and covers exactly `SPEED * dt`.
   */
  lemma WalkDistance(p: Vec, keys: Keys, norm: real, dt: real)
    requires IsNorm(keys, norm)
    requires Axis(keys.left, keys.right) != 0 || Axis(keys.up, keys.down) != 0
    requires var mx, my := Axis(keys.left, keys.right) as real, Axis(keys.up, keys.down) as real;
      0.0 <= p.x + (mx / norm) * SPEED * dt <= SCREEN_W && 0.0 <= p.y + (my / norm) * SPEED * dt <= SCREEN_H
    ensures var r := Walk(p, keys, norm, dt);
      (r.x - p.x) * norm == Axis(keys.left, keys.right) as real * (SPEED * dt) &&
      (r.y - p.y) * norm == Axis(keys.up, keys.down) as real * (SPEED * dt)
    ensures var r := Walk(p, keys, norm, dt);
      (r.x - p.x) * (r.x - p.x) + (r.y - p.y) * (r.y - p.y) == (SPEED * dt) * (SPEED * dt)
  {
    var mx, my := Axis(keys.left, keys.right) as real, Axis(keys.up, keys.down) as real;
    var ux, uy := mx / norm, my / norm;
    var r := Walk(p, keys, norm, dt);
    assert r == Vec(p.x + ux * SPEED * dt, p.y + uy * SPEED * dt);
    assert r.x - p.x == ux * (SPEED * dt) && r.y - p.y == uy * (SPEED * dt);
    assert ux * norm == mx && uy * norm == my;
    assert (r.x - p.x) * norm == (ux * norm) * (SPEED * dt);
    assert (r.y - p.y) * norm == (uy * norm) * (SPEED * dt);
    calc {
      (ux * ux + uy * uy) * (norm * norm);
      (ux * norm) * (ux * norm) + (uy * norm) * (uy * norm);
      { assert ux * norm == mx && uy * norm == my; }
      mx * mx + my * my;
      1.0 * (norm * norm);
    }
    assert ux * ux + uy * uy == 1.0;
    calc {
      (r.x - p.x) * (r.x - p.x) + (r.y - p.y) * (r.y - p.y);
      (ux * ux + uy * uy) * ((SPEED * dt) * (SPEED * dt));
    }
  }

  // ---------------------------------------------------------------------------
  // Bullets
  // ---------------------------------------------------------------------------

  /** Whose bullet it is: the `owner` string 'player' or 'enemy'. */
  datatype Side = Ours | Theirs

  datatype Bullet = Bullet(x: real, y: real, dx: real, dy: real, speed: real, damage: int, owner: Side)

  /** The movement of `Bullet.update`. */
  function Fly(b: Bullet, dt: real): (r: Bullet)
    ensures r.(x := b.x, y := b.y) == b
  {
    b.(x := b.x + b.dx * b.speed * dt, y := b.y + b.dy * b.speed * dt)
  }

  /** The open box `(-300, SCREEN_W + 300) x (-300, SCREEN_H + 300)` a bullet may be in. */
  predicate InBounds(b: Bullet)
  {
    -PADDING < b.x < SCREEN_W + PADDING && -PADDING < b.y < SCREEN_H + PADDING
  }

  /** The bullets moved by `dt`, in group order. */
  function Flown(bs: seq<Bullet>, dt: real): seq<Bullet>
  {
    Map(bs, (b: Bullet) => Fly(b, dt))
  }

  /**
   * `bullets.update(dt)`: every bullet moves and is killed exactly when it
   * has left the padded box; the survivors keep their order.
   */
  lemma BulletsUpdate(bs: seq<Bullet>, dt: real)
    ensures var r := Filter(Flown(bs, dt), InBounds);
      (forall i :: 0 <= i < |r| ==> InBounds(r[i])) &&
      (forall i :: 0 <= i < |bs| ==> (Fly(bs[i], dt) in r <== InBounds(Fly(bs[i], dt)))) &&
      SubsequenceOf(r, Flown(bs, dt))
  {
    FilterKeepsOrder(Flown(bs, dt), InBounds);
  }

  // ---------------------------------------------------------------------------
  // Enemies and pickups
  // ---------------------------------------------------------------------------

  /** An enemy: where it is, its sprite rectangle, and its health. */
  datatype Enemy = Enemy(x: real, y: real, rect: Rect, health: int)

  /** The screen edge a new enemy comes in from. */
  datatype Edge = Top | Bottom | Left | Right

  /** Where a new enemy appears: 60 pixels beyond `edge`, at `along` on that edge. */
  function SpawnPoint(edge: Edge, along: int): (r: Vec)
    requires 0 <= along && along as real <= (if edge == Top || edge == Bottom then SCREEN_W else SCREEN_H)
    ensures r.x < 0.0 || r.x > SCREEN_W || r.y < 0.0 || r.y > SCREEN_H
    ensures 0.0 <= r.x <= SCREEN_W || 0.0 <= r.y <= SCREEN_H
  {
    match edge
    case Top => Vec(along as real, -60.0)
    case Bottom => Vec(along as real, SCREEN_H + 60.0)
    case Left => Vec(-60.0, along as real)
    case Right => Vec(SCREEN_W + 60.0, along as real)
  }

  /** `Enemy(img, x, y)`: a `size` x `size` sprite centred on the spawn point with `health` hit points. */
  function NewEnemy(at: Vec, size: int, health: int): (r: Enemy)
    requires 48 <= size <= 88 && 18 <= health <= 48
    ensures Standing(r) && r.x == at.x && r.y == at.y
    ensures r.rect.w == r.rect.h == size as real && r.rect.x + r.rect.w / 2.0 == at.x && r.rect.y + r.rect.h / 2.0 == at.y
  {
    Enemy(at.x, at.y, Box(at.x, at.y, size as real / 2.0), health)
  }

  /** `spritecollideany(b, enemies)` for one enemy: the 6x6 bullet rectangle overlaps the enemy's. */
  predicate Hits(b: Bullet, e: Enemy)
  {
    Box(b.x, b.y, 3.0).Overlaps(e.rect)
  }

  /** The first enemy from index `k` on that the bullet touches; `|es|` when there is none. */
  function FirstHit(b: Bullet, es: seq<Enemy>, k: nat): (r: nat)
    requires k <= |es|
    ensures k <= r <= |es|
    ensures r < |es| ==> Hits(b, es[r])
    ensures forall j :: k <= j < r ==> !Hits(b, es[j])
    decreases |es| - k
  {
    if k == |es| then k else if Hits(b, es[k]) then k else FirstHit(b, es, k + 1)
  }

  /** The enemies after one bullet, and whether that bullet stays in the group. */
  datatype Volley = Volley(enemies: seq<Enemy>, kept: seq<Bullet>)

  /**
   * The player-bullet collision loop: each player bullet that touches an
   * enemy takes its damage off the first such enemy and is removed; enemy
   * bullets and misses stay.
   */
  function Strike(es: seq<Enemy>, bs: seq<Bullet>): (r: Volley)
    ensures |r.enemies| == |es| && |r.kept| <= |bs|
    decreases |bs|
  {
    if bs == [] then Volley(es, [])
    else
      var v := Strike(es, bs[..|bs| - 1]);
      var b := bs[|bs| - 1];
      var k := FirstHit(b, v.enemies, 0);
      if b.owner == Ours && k < |v.enemies| then
        Volley(v.enemies[k := v.enemies[k].(health := v.enemies[k].health - b.damage)], v.kept)
      else Volley(v.enemies, v.kept + [b])
  }

  /** Only health changes: positions and rectangles stay. */
  predicate SameBodies(a: seq<Enemy>, b: seq<Enemy>)
  {
    |a| == |b| && forall k :: 0 <= k < |a| ==> a[k].(health := 0) == b[k].(health := 0)
  }

  /** Some enemy of `es` touches `b`. */
  predicate Landed(b: Bullet, es: seq<Enemy>)
  {
    b.owner == Ours && exists k :: 0 <= k < |es| && Hits(b, es[k])
  }

  /** Whether a bullet touches an enemy depends only on the rectangles, never on health. */
  lemma {:induction false} FirstHitIgnoresHealth(b: Bullet, a: seq<Enemy>, c: seq<Enemy>, k: nat)
    requires SameBodies(a, c) && k <= |a|
    ensures FirstHit(b, a, k) == FirstHit(b, c, k)
    decreases |a| - k
  {
    if k < |a| {
      assert a[k].rect == c[k].rect by {
        assert a[k].(health := 0) == c[k].(health := 0);
      }
      FirstHitIgnoresHealth(b, a, c, k + 1);
    }
  }

  /**
   * The collision loop removes exactly the player bullets that touch some
   * enemy, keeps the rest in order, and changes nothing but enemy health.
   */
  lemma {:induction false} StrikeRemovesHitters(es: seq<Enemy>, bs: seq<Bullet>)
    ensures var r := Strike(es, bs);
      SameBodies(r.enemies, es) && r.kept == Filter(bs, (b: Bullet) => !Landed(b, es))
    decreases |bs|
  {
    if bs != [] {
      var n := |bs| - 1;
      var v := Strike(es, bs[..n]);
      StrikeRemovesHitters(es, bs[..n]);
      var b := bs[n];
      FirstHitIgnoresHealth(b, v.enemies, es, 0);
      var k := FirstHit(b, es, 0);
      assert Landed(b, es) <==> b.owner == Ours && k < |es| by {
        if b.owner == Ours && k == |es| {
          forall j | 0 <= j < |es|
            ensures !Hits(b, es[j])
          {
          }
        }
      }
      assert bs == bs[..n] + [b];
      FilterSnoc(bs[..n], b, (b: Bullet) => !Landed(b, es));
    }
  }

  /** The total health of a list of enemies. */
  function Vitality(es: seq<Enemy>): int
    decreases |es|
  {
    if es == [] then 0 else Vitality(es[..|es| - 1]) + es[|es| - 1].health
  }

  /** The total damage of a list of bullets. */
  function Firepower(bs: seq<Bullet>): int
    decreases |bs|
  {
    if bs == [] then 0 else Firepower(bs[..|bs| - 1]) + bs[|bs| - 1].damage
  }

  lemma {:induction false} VitalityUpdate(es: seq<Enemy>, i: nat, e: Enemy)
    requires i < |es|
    ensures Vitality(es[i := e]) == Vitality(es) - es[i].health + e.health
    decreases |es|
  {
    var n := |es| - 1;
    if i < n {
      assert es[i := e][..n] == es[..n][i := e];
      VitalityUpdate(es[..n], i, e);
    } else {
      assert es[i := e][..n] == es[..n];
    }
  }

  /** The damage of the player bullets of `bs` whose first overlapped enemy of `es` is the one at `k`. */
  function DamageTo(bs: seq<Bullet>, es: seq<Enemy>, k: nat): int
    decreases |bs|
  {
    if bs == [] then 0
    else
      var b := bs[|bs| - 1];
      DamageTo(bs[..|bs| - 1], es, k) + if b.owner == Ours && FirstHit(b, es, 0) == k then b.damage else 0
  }

  /**
   * Each player bullet wounds the first enemy it overlaps and no other: every
   * enemy loses exactly the damage of the player bullets aimed first at it.
   */
  lemma {:induction false} StrikeWoundsFirstHit(es: seq<Enemy>, bs: seq<Bullet>)
    ensures forall k :: 0 <= k < |es| ==> Strike(es, bs).enemies[k].health == es[k].health - DamageTo(bs, es, k)
    decreases |bs|
  {
    if bs != [] {
      var n := |bs| - 1;
      var v := Strike(es, bs[..n]);
      StrikeWoundsFirstHit(es, bs[..n]);
      StrikeRemovesHitters(es, bs[..n]);
      var b := bs[n];
      FirstHitIgnoresHealth(b, v.enemies, es, 0);
    }
  }

  /** Damage is conserved: the enemies lose, in total, exactly the damage of the bullets that were removed. */
  lemma {:induction false} StrikeConservesDamage(es: seq<Enemy>, bs: seq<Bullet>)
    ensures var r := Strike(es, bs);
      Vitality(r.enemies) == Vitality(es) - (Firepower(bs) - Firepower(r.kept))
    decreases |bs|
  {
    if bs != [] {
      var n := |bs| - 1;
      var v := Strike(es, bs[..n]);
      StrikeConservesDamage(es, bs[..n]);
      var b := bs[n];
      var k := FirstHit(b, v.enemies, 0);
      assert Firepower(bs) == Firepower(bs[..n]) + b.damage;
      if b.owner == Ours && k < |v.enemies| {
        var hit := v.enemies[k].(health := v.enemies[k].health - b.damage);
        assert Strike(es, bs) == Volley(v.enemies[k := hit], v.kept);
        VitalityUpdate(v.enemies, k, hit);
      } else {
        assert Strike(es, bs) == Volley(v.enemies, v.kept + [b]);
        assert (v.kept + [b])[..|v.kept|] == v.kept;
        assert Firepower(v.kept + [b]) == Firepower(v.kept) + b.damage;
      }
    }
  }

  /** An enemy still in the fight. */
  predicate Standing(e: Enemy)
  {
    e.health > 0
  }

  /** How many enemies of `es` are down. */
  function Fallen(es: seq<Enemy>): nat
    decreases |es|
  {
    if es == [] then 0 else Fallen(es[..|es| - 1]) + if Standing(es[|es| - 1]) then 0 else 1
  }

  /** The enemies still standing, in group order. */
  function Survivors(es: seq<Enemy>): seq<Enemy>
    decreases |es|
  {
    if es == [] then []
    else Survivors(es[..|es| - 1]) + if Standing(es[|es| - 1]) then [es[|es| - 1]] else []
  }

  /** `Survivors` keeps exactly the standing enemies, in order. */
  lemma {:induction false} SurvivorsFilter(es: seq<Enemy>)
    ensures Survivors(es) == Filter(es, Standing)
    decreases |es|
  {
    if es != [] {
      var n := |es| - 1;
      SurvivorsFilter(es[..n]);
      assert es == es[..n] + [es[n]];
      FilterSnoc(es[..n], es[n], Standing);
    }
  }

  /** Every enemy is either kept or counted as fallen. */
  lemma {:induction false} CullPartition(es: seq<Enemy>)
    ensures |Filter(es, Standing)| + Fallen(es) == |es|
    decreases |es|
  {
    if es != [] {
      var n := |es| - 1;
      CullPartition(es[..n]);
      assert es == es[..n] + [es[n]];
      FilterSnoc(es[..n], es[n], Standing);
    }
  }

  /** One more enemy through the cull: the kept list, the fallen count and the drops each grow by its share. */
  lemma CullNext(es: seq<Enemy>, dropHealth: seq<bool>, dropAmmo: seq<bool>, i: nat)
    requires |dropHealth| == |es| == |dropAmmo| && i < |es|
    ensures Survivors(es[..i + 1]) == Survivors(es[..i]) + if Standing(es[i]) then [es[i]] else []
    ensures Fallen(es[..i + 1]) == Fallen(es[..i]) + if Standing(es[i]) then 0 else 1
    ensures Loot(es[..i + 1], dropHealth[..i + 1], dropAmmo[..i + 1]) ==
      Loot(es[..i], dropHealth[..i], dropAmmo[..i]) + if Standing(es[i]) then [] else Drop(es[i], dropHealth[i], dropAmmo[i])
  {
    assert es[..i + 1] == es[..i] + [es[i]];
    assert es[..i + 1][..i] == es[..i];
    assert dropHealth[..i + 1][..i] == dropHealth[..i] && dropAmmo[..i + 1][..i] == dropAmmo[..i];
  }

  /** Taking out, or stepping over, the element just after a prefix `a`. */
  lemma Splice<T>(a: seq<T>, rest: seq<T>)
    requires rest != []
    ensures var s := a + rest; s[|a|] == rest[0] && s[..|a|] + s[|a| + 1..] == a + rest[1..]
    ensures a + rest == (a + [rest[0]]) + rest[1..]
  {
    var s := a + rest;
    assert s[..|a|] == a && s[|a| + 1..] == rest[1..];
    assert rest == [rest[0]] + rest[1..];
  }

  lemma Associate<T>(a: seq<T>, b: seq<T>, c: seq<T>)
    ensures (a + b) + c == a + (b + c)
  {
  }

  datatype Kind = HealthPack | AmmoBox

  /** A 20x20 pickup. */
  datatype Pickup = Pickup(kind: Kind, rect: Rect)

  /** The pickups a fallen enemy may drop at its position: health first, then ammo. */
  function Drop(e: Enemy, health: bool, ammo: bool): seq<Pickup>
  {
    (if health then [Pickup(HealthPack, Box(e.x, e.y, 10.0))] else []) +
    (if ammo then [Pickup(AmmoBox, Box(e.x, e.y, 10.0))] else [])
  }

  /** What the fallen among `es` drop, in order; `dropHealth[k]`, `dropAmmo[k]` are the coin tosses for enemy `k`. */
  function Loot(es: seq<Enemy>, dropHealth: seq<bool>, dropAmmo: seq<bool>): (r: seq<Pickup>)
    requires |dropHealth| == |es| == |dropAmmo|
    ensures |r| <= 2 * Fallen(es)
    decreases |es|
  {
    if es == [] then []
    else
      var n := |es| - 1;
      Loot(es[..n], dropHealth[..n], dropAmmo[..n]) +
      (if Standing(es[n]) then [] else Drop(es[n], dropHealth[n], dropAmmo[n]))
  }

  /** `spritecollide(player, pickups, True)`: the pickups whose rectangle overlaps the player's `body`, in group order. */
  function Touched(ps: seq<Pickup>, body: Rect): seq<Pickup>
  {
    Filter(ps, (p: Pickup) => body.Overlaps(p.rect))
  }

  /** The pickups `spritecollide` leaves in the group. */
  function Untouched(ps: seq<Pickup>, body: Rect): seq<Pickup>
  {
    Filter(ps, (p: Pickup) => !body.Overlaps(p.rect))
  }

  /** The player's stats that pickups change. */
  datatype Stats = Stats(health: int, score: int, weapons: map<string, Weapon>)

  /** An ammo box: 40 rounds for the rifle, 10 for the pistol. */
  function Refill(ws: map<string, Weapon>): (r: map<string, Weapon>)
    requires RIFLE in ws && PISTOL in ws
    ensures r.Keys == ws.Keys
    ensures r[RIFLE] == ws[RIFLE].(ammo := ws[RIFLE].ammo + 40)
    ensures r[PISTOL] == ws[PISTOL].(ammo := ws[PISTOL].ammo + 10)
    ensures forall name :: name in ws && name != RIFLE && name != PISTOL ==> r[name] == ws[name]
  {
    var rifle := ws[RIFLE];
    var ws1 := ws[RIFLE := rifle.(ammo := rifle.ammo + 40)];
    ws1[PISTOL := ws1[PISTOL].(ammo := ws1[PISTOL].ammo + 10)]
  }

  /**
   * The effect of one collected pickup: a health pack gives `min(200, health
   * + 40)` and 6 points, an ammo box refills both weapons and gives 4 points.
   */
  function Gain(s: Stats, k: Kind): (r: Stats)
    requires RIFLE in s.weapons && PISTOL in s.weapons
    ensures RIFLE in r.weapons && PISTOL in r.weapons
    ensures k == HealthPack ==>
      r.health <= HEALTH_CAP && r.health <= s.health + 40 && (r.health == HEALTH_CAP || r.health == s.health + 40) &&
      r.score == s.score + 6 && r.weapons == s.weapons
    ensures k == AmmoBox ==> r.health == s.health && r.score == s.score + 4 && r.weapons == Refill(s.weapons)
  {
    match k
    case HealthPack => s.(health := if s.health + 40 <= HEALTH_CAP then s.health + 40 else HEALTH_CAP, score := s.score + 6)
    case AmmoBox => s.(weapons := Refill(s.weapons), score := s.score + 4)
  }

  /**
   * An ammo box takes an unlimited pistol off the sentinel: it then holds
   * 10009 rounds and is spent like any finite weapon.
   */
  lemma AmmoBoxEndsUnlimitedPistol(s: Stats)
    requires RIFLE in s.weapons && PISTOL in s.weapons && s.weapons[PISTOL].ammo == INFINITE
    ensures var p := Gain(s, AmmoBox).weapons[PISTOL];
      p.ammo == INFINITE + 10 && Spend(p.ammo) == p.ammo - 1
  {
  }

  /** The effects of the collected pickups, applied in order. */
  function Collect(s: Stats, ps: seq<Pickup>): (r: Stats)
    requires RIFLE in s.weapons && PISTOL in s.weapons
    ensures RIFLE in r.weapons && PISTOL in r.weapons
    decreases |ps|
  {
    if ps == [] then s else Gain(Collect(s, ps[..|ps| - 1]), ps[|ps| - 1].kind)
  }

  /** How many pickups of a kind are in the list. */
  function Count(ps: seq<Pickup>, k: Kind): nat
    decreases |ps|
  {
    if ps == [] then 0 else Count(ps[..|ps| - 1], k) + if ps[|ps| - 1].kind == k then 1 else 0
  }

  /**
   * Pickups never lift health above 200 (unless it was above already, when
   * health packs leave it at 200) and add 6 points per health pack and 4 per
   * ammo box; without a health pack health is untouched, and without an ammo
   * box so are the weapons.
   */
  lemma {:induction false} CollectRewards(s: Stats, ps: seq<Pickup>)
    requires RIFLE in s.weapons && PISTOL in s.weapons
    ensures var r := Collect(s, ps);
      r.score == s.score + 6 * Count(ps, HealthPack) + 4 * Count(ps, AmmoBox) &&
      (s.health <= HEALTH_CAP ==> r.health <= HEALTH_CAP) &&
      (Count(ps, HealthPack) > 0 ==> r.health <= HEALTH_CAP) &&
      (Count(ps, HealthPack) == 0 ==> r.health == s.health) &&
      (Count(ps, AmmoBox) == 0 ==> r.weapons == s.weapons)
    decreases |ps|
  {
    if ps != [] {
      CollectRewards(s, ps[..|ps| - 1]);
    }
  }

  /** `max(0.9 - score * 0.0015, 0.28)`: the delay before the next enemy. */
  function SpawnInterval(score: int): (r: real)
    ensures r >= 0.28
    ensures score >= 0 ==> r <= 0.9
    ensures score <= 413 ==> r == 0.9 - score as real * 0.0015
    ensures score >= 414 ==> r == 0.28
  {
    Max(0.9 - score as real * 0.0015, 0.28)
  }

  // ---------------------------------------------------------------------------
  // The player
  // ---------------------------------------------------------------------------

  class Player {
    var x: real
    var y: real
    var health: int
    var score: int
    var weapons: map<string, Weapon>
    var current: string
    var fireCooldown: real

    /** A new player at the screen centre with 120 health, a full arsenal and the rifle drawn. */
    constructor ()
      ensures x == SCREEN_W / 2.0 && y == SCREEN_H / 2.0
      ensures health == 120 && score == 0 && weapons == ARSENAL && current == RIFLE && fireCooldown == 0.0
      ensures Valid()
    {
      x, y := SCREEN_W / 2.0, SCREEN_H / 2.0;
      health, score := 120, 0;
      weapons := ARSENAL;
      current := RIFLE;
      fireCooldown := 0.0;
    }

    /** Both weapons are there and the drawn one is one of them. */
    predicate Valid()
      reads this
    {
      RIFLE in weapons && PISTOL in weapons && current in weapons
    }

    function Status(): Stats
      reads this
    {
      Stats(health, score, weapons)
    }

    /**
     * `Player.update`, without the sprite rotation: move, run down the
     * cooldown, and when a shot is due pay for it and return the new bullet,
     * fired from `muzzle` along the unit vector `aim`.
     */
    method Update(dt: real, keys: Keys, norm: real, shooting: bool, aim: Vec, muzzle: Vec)
      returns (fired: seq<Bullet>)
      requires Valid() && IsNorm(keys, norm)
      modifies this
      ensures Valid() && current == old(current) && health == old(health) && score == old(score)
      ensures Vec(x, y) == Walk(Vec(old(x), old(y)), keys, norm, dt)
      ensures var f := Fire(old(fireCooldown), old(weapons)[current], shooting, dt);
        fireCooldown == f.cooldown && weapons == old(weapons)[current := f.weapon] &&
        fired == if f.fires then [Bullet(muzzle.x, muzzle.y, aim.x, aim.y, f.weapon.speed, f.weapon.damage, Ours)] else []
    {
      Move(dt, keys, norm);
      fired := Shoot(dt, shooting, aim, muzzle);
    }

    /** The movement part of `Player.update`. */
    method Move(dt: real, keys: Keys, norm: real)
      requires IsNorm(keys, norm)
      modifies this`x, this`y
      ensures Vec(x, y) == Walk(Vec(old(x), old(y)), keys, norm, dt)
    {
      var mx, my := Axis(keys.left, keys.right), Axis(keys.up, keys.down);
      if mx != 0 || my != 0 {
        x := x + (mx as real / norm) * SPEED * dt;
        y := y + (my as real / norm) * SPEED * dt;
        x := Max(0.0, Min(x, SCREEN_W));
        y := Max(0.0, Min(y, SCREEN_H));
      }
    }

    /** The cooldown and firing part of `Player.update`. */
    method Shoot(dt: real, shooting: bool, aim: Vec, muzzle: Vec) returns (fired: seq<Bullet>)
      requires Valid()
      modifies this`fireCooldown, this`weapons
      ensures Valid()
      ensures var f := Fire(old(fireCooldown), old(weapons)[current], shooting, dt);
        fireCooldown == f.cooldown && weapons == old(weapons)[current := f.weapon] &&
        fired == if f.fires then [Bullet(muzzle.x, muzzle.y, aim.x, aim.y, f.weapon.speed, f.weapon.damage, Ours)] else []
    {
      fireCooldown := fireCooldown - dt;
      var w := weapons[current];
      fired := [];
      if shooting && fireCooldown <= 0.0 && w.ammo != 0 {
        fireCooldown := w.rate;
        if weapons[current].ammo > 0 {
          if weapons[current].ammo != INFINITE {
            weapons := weapons[current := weapons[current].(ammo := weapons[current].ammo - 1)];
          }
        }
        fired := [Bullet(muzzle.x, muzzle.y, aim.x, aim.y, w.speed, w.damage, Ours)];
      } else {
        assert weapons == weapons[current := w];
      }
    }

    /** The effect of one collected pickup on the player. */
    method Gather(k: Kind)
      requires Valid()
      modifies this`health, this`score, this`weapons
      ensures Valid() && Status() == Gain(old(Status()), k)
    {
      if k == HealthPack {
        health := if health + 40 <= HEALTH_CAP then health + 40 else HEALTH_CAP;
        score := score + 6;
      } else {
        weapons := weapons[RIFLE := weapons[RIFLE].(ammo := weapons[RIFLE].ammo + 40)];
        weapons := weapons[PISTOL := weapons[PISTOL].(ammo := weapons[PISTOL].ammo + 10)];
        score := score + 4;
      }
    }

    /** `switch_weapon(name)`: draw `name` if the player has such a weapon, else do nothing. */
    method SwitchWeapon(name: string)
      requires Valid()
      modifies this`current
      ensures Valid()
      ensures name in weapons ==> current == name
      ensures name !in weapons ==> current == old(current)
    {
      if name in weapons {
        current := name;
      }
    }
  }

  // ---------------------------------------------------------------------------
  // The game loop
  // ---------------------------------------------------------------------------

  class Game {
    const player: Player
    var enemies: seq<Enemy>
    var bullets: seq<Bullet>
    var pickups: seq<Pickup>
    var spawnTimer: real
    var paused: bool

    constructor ()
      ensures fresh(player) && player.Valid() && player.health == 120 && player.score == 0
      ensures enemies == [] && bullets == [] && pickups == [] && spawnTimer == 1.2 && !paused
    {
      player := new Player();
      enemies, bullets, pickups := [], [], [];
      spawnTimer := 1.2;
      paused := false;
    }

    /** The player's update; a fired bullet joins the bullet group. */
    method UpdatePlayer(dt: real, keys: Keys, norm: real, shooting: bool, aim: Vec, muzzle: Vec)
      requires player.Valid() && IsNorm(keys, norm)
      modifies player, this`bullets
      ensures player.Valid() && player.current == old(player.current)
      ensures player.health == old(player.health) && player.score == old(player.score)
      ensures Vec(player.x, player.y) == Walk(Vec(old(player.x), old(player.y)), keys, norm, dt)
      ensures var f := Fire(old(player.fireCooldown), old(player.weapons)[old(player.current)], shooting, dt);
        player.fireCooldown == f.cooldown && player.weapons == old(player.weapons)[old(player.current) := f.weapon] &&
        bullets == old(bullets) + (if f.fires then [Bullet(muzzle.x, muzzle.y, aim.x, aim.y, f.weapon.speed, f.weapon.damage, Ours)] else [])
    {
      var fired := player.Update(dt, keys, norm, shooting, aim, muzzle);
      bullets := bullets + fired;
    }

    /**
     * The spawn timer runs down by `dt`; when it has run out it restarts at
     * `SpawnInterval(score)` and a new enemy joins at a random edge, with a
     * random size and health (the draws are parameters).
     */
    method Spawn(dt: real, edge: Edge, along: int, size: int, health: int)
      requires 0 <= along && along as real <= (if edge == Top || edge == Bottom then SCREEN_W else SCREEN_H)
      requires 48 <= size <= 88 && 18 <= health <= 48
      modifies this`spawnTimer, this`enemies
      ensures old(spawnTimer) - dt <= 0.0 ==>
        spawnTimer == SpawnInterval(player.score) && enemies == old(enemies) + [NewEnemy(SpawnPoint(edge, along), size, health)]
      ensures old(spawnTimer) - dt > 0.0 ==> spawnTimer == old(spawnTimer) - dt && enemies == old(enemies)
    {
      spawnTimer := spawnTimer - dt;
      if spawnTimer <= 0.0 {
        spawnTimer := Max(0.9 - player.score as real * 0.0015, 0.28);
        var at := SpawnPoint(edge, along);
        enemies := enemies + [Enemy(at.x, at.y, Box(at.x, at.y, size as real / 2.0), health)];
      }
    }

    /**
     * The enemy loop's reward part: every enemy with no health left is
     * removed, earning 12 points and 40 health (no cap), and may drop a
     * health pack and an ammo box.
     */
    method Cull(dropHealth: seq<bool>, dropAmmo: seq<bool>)
      requires |dropHealth| == |enemies| == |dropAmmo|
      modifies this`enemies, this`pickups, player`score, player`health
      ensures enemies == Filter(old(enemies), Standing)
      ensures player.score == old(player.score) + 12 * Fallen(old(enemies))
      ensures player.health == old(player.health) + 40 * Fallen(old(enemies))
      ensures pickups == old(pickups) + Loot(old(enemies), dropHealth, dropAmmo)
    {
      var roster := enemies;
      ghost var score0, health0, pickups0 := player.score, player.health, pickups;
      var pos := 0;
      for i := 0 to |roster|
        invariant pos == |Survivors(roster[..i])|
        invariant enemies == Survivors(roster[..i]) + roster[i..]
        invariant player.score == score0 + 12 * Fallen(roster[..i])
        invariant player.health == health0 + 40 * Fallen(roster[..i])
        invariant pickups == pickups0 + Loot(roster[..i], dropHealth[..i], dropAmmo[..i])
      {
        pos := CullOne(roster, dropHealth, dropAmmo, i, pos, score0, health0, pickups0);
      }
      assert roster[..|roster|] == roster;
      assert dropHealth[..|roster|] == dropHealth && dropAmmo[..|roster|] == dropAmmo;
      SurvivorsFilter(roster);
    }

    /**
     * The loop body for enemy `i`: a fallen enemy leaves the group and is
     * rewarded, a standing one stays; the cull's invariant moves on to `i + 1`.
     */
    method CullOne(roster: seq<Enemy>, dropHealth: seq<bool>, dropAmmo: seq<bool>, i: nat, pos: nat,
                   ghost score0: int, ghost health0: int, ghost pickups0: seq<Pickup>) returns (next: nat)
      requires |dropHealth| == |roster| == |dropAmmo| && i < |roster|
      requires pos == |Survivors(roster[..i])| && enemies == Survivors(roster[..i]) + roster[i..]
      requires player.score == score0 + 12 * Fallen(roster[..i])
      requires player.health == health0 + 40 * Fallen(roster[..i])
      requires pickups == pickups0 + Loot(roster[..i], dropHealth[..i], dropAmmo[..i])
      modifies this`enemies, this`pickups, player`score, player`health
      ensures next == |Survivors(roster[..i + 1])| && enemies == Survivors(roster[..i + 1]) + roster[i + 1..]
      ensures player.score == score0 + 12 * Fallen(roster[..i + 1])
      ensures player.health == health0 + 40 * Fallen(roster[..i + 1])
      ensures pickups == pickups0 + Loot(roster[..i + 1], dropHealth[..i + 1], dropAmmo[..i + 1])
    {
      CullNext(roster, dropHealth, dropAmmo, i);
      var e := roster[i];
      ghost var standing := Survivors(roster[..i]);
      ghost var loot := Loot(roster[..i], dropHealth[..i], dropAmmo[..i]);
      Splice(standing, roster[i..]);
      assert roster[i..][1..] == roster[i + 1..];
      if e.health <= 0 {
        enemies := enemies[..pos] + enemies[pos + 1..];
        Reward(e, dropHealth[i], dropAmmo[i]);
        Associate(pickups0, loot, Drop(e, dropHealth[i], dropAmmo[i]));
        next := pos;
      } else {
        next := pos + 1;
      }
    }

    /** One fallen enemy: 12 points, 40 health, and whatever it drops. */
    method Reward(e: Enemy, dropHealth: bool, dropAmmo: bool)
      modifies this`pickups, player`score, player`health
      ensures player.score == old(player.score) + 12 && player.health == old(player.health) + 40
      ensures pickups == old(pickups) + Drop(e, dropHealth, dropAmmo)
    {
      player.score := player.score + 12;
      player.health := player.health + 40;
      if dropHealth {
        pickups := pickups + [Pickup(HealthPack, Box(e.x, e.y, 10.0))];
      }
      if dropAmmo {
        pickups := pickups + [Pickup(AmmoBox, Box(e.x, e.y, 10.0))];
      }
    }

    /** `bullets.update(dt)`: move every bullet and kill those outside the padded box. */
    method UpdateBullets(dt: real)
      modifies this`bullets
      ensures bullets == Filter(Flown(old(bullets), dt), InBounds)
    {
      bullets := Filter(Flown(bullets, dt), InBounds);
    }

    /**
     * The player-bullet collision loop: each player bullet that touches an
     * enemy wounds the first such enemy and is removed from the group.
     */
    method StrikeEnemies()
      modifies this`enemies, this`bullets
      ensures var r := Strike(old(enemies), old(bullets)); enemies == r.enemies && bullets == r.kept
    {
      var shots := bullets;
      var pos := 0;
      ghost var es0 := enemies;
      for i := 0 to |shots|
        invariant Striking(es0, shots, i, pos)
      {
        pos := StrikeOne(shots, i, pos, es0);
      }
      assert shots[..|shots|] == shots;
    }

    /** The state of the collision loop after the first `i` of `shots`, the next one at `pos`. */
    ghost predicate Striking(es0: seq<Enemy>, shots: seq<Bullet>, i: nat, pos: nat)
      reads this
    {
      i <= |shots| &&
      var v := Strike(es0, shots[..i]);
      enemies == v.enemies && bullets == v.kept + shots[i..] && pos == |v.kept|
    }

    /** The loop body for bullet `i`: the invariant of the collision loop moves on to `i + 1`. */
    method StrikeOne(shots: seq<Bullet>, i: nat, pos: nat, ghost es0: seq<Enemy>) returns (next: nat)
      requires i < |shots| && Striking(es0, shots, i, pos)
      modifies this`enemies, this`bullets
      ensures Striking(es0, shots, i + 1, next)
    {
      var b := shots[i];
      assert shots[..i + 1][..i] == shots[..i];
      ghost var v := Strike(es0, shots[..i]);
      Splice(v.kept, shots[i..]);
      assert shots[i..][1..] == shots[i + 1..];
      next := pos + 1;
      if b.owner == Ours {
        var k := FirstEnemyHit(b);
        if k < |enemies| {
          enemies := enemies[k := enemies[k].(health := enemies[k].health - b.damage)];
          bullets := bullets[..pos] + bullets[pos + 1..];
          next := pos;
        }
      }
    }

    /** `spritecollideany(b, enemies)`: the index of the first enemy the bullet touches, `|enemies|` if none. */
    method FirstEnemyHit(b: Bullet) returns (k: nat)
      ensures k == FirstHit(b, enemies, 0)
    {
      k := 0;
      while k < |enemies| && !Hits(b, enemies[k])
        invariant k <= |enemies| && FirstHit(b, enemies, 0) == FirstHit(b, enemies, k)
      {
        k := k + 1;
      }
    }

    /**
     * Pickups: the ones touching the player's rectangle `body` are removed
     * and then applied in group order.
     */
    method CollectPickups(body: Rect)
      requires player.Valid()
      modifies this`pickups, player`health, player`score, player`weapons
      ensures player.Valid()
      ensures pickups == Untouched(old(pickups), body)
      ensures player.Status() == Collect(old(player.Status()), Touched(old(pickups), body))
    {
      var got := Touched(pickups, body);
      pickups := Untouched(pickups, body);
      ghost var s0 := player.Status();
      for i := 0 to |got|
        invariant player.Status() == Collect(s0, got[..i])
        invariant player.Valid() && pickups == Untouched(old(pickups), body)
      {
        assert got[..i + 1][..i] == got[..i];
        player.Gather(got[i].kind);
      }
      assert got[..|got|] == got;
    }

    /** The P key: pause or resume. */
    method TogglePause()
      modifies this`paused
      ensures paused == !old(paused)
    {
      paused := !paused;
    }

    /** The death check: the game pauses once health is zero or less. */
    method CheckDeath()
      modifies this`paused
      ensures paused == (old(paused) || player.health <= 0)
    {
      if player.health <= 0 {
        paused := true;
      }
    }

    /**
     * The R key on the death screen: all groups emptied, the player back at
     * the centre with 1400 health, no score, and the starting ammo.
     */
    method Restart()
      requires player.Valid()
      modifies this`enemies, this`bullets, this`pickups, this`paused, player
      ensures player.Valid()
      ensures enemies == [] && bullets == [] && pickups == [] && !paused
      ensures player.x == SCREEN_W / 2.0 && player.y == SCREEN_H / 2.0
      ensures player.health == 1400 && player.score == 0
      ensures player.weapons == old(player.weapons)[RIFLE := old(player.weapons)[RIFLE].(ammo := 180)]
                                                   [PISTOL := old(player.weapons)[PISTOL].(ammo := INFINITE)]
      ensures player.current == old(player.current) && player.fireCooldown == old(player.fireCooldown)
    {
      enemies, bullets, pickups := [], [], [];
      player.x, player.y := SCREEN_W / 2.0, SCREEN_H / 2.0;
      player.health, player.score := 1400, 0;
      player.weapons := player.weapons[RIFLE := player.weapons[RIFLE].(ammo := 180)];
      player.weapons := player.weapons[PISTOL := player.weapons[PISTOL].(ammo := INFINITE)];
      paused := false;
    }
  }
}
