/**
 * The combat core of valorant.py: abilities with cooldowns, the player life
 * cycle (alive, dead, respawned), shield damage reduction, shooting, and the
 * per-frame bullet loop that moves every bullet, drops the stale ones and
 * those inside a wall, and lets each remaining bullet wound at most one
 * player other than its owner.
 *
 * The clock, the random spawn positions and the bullet velocity (which the
 * source derives with atan2/cos/sin and a random spread) are parameters.
 */
module MiniValorant {
  import opened Common

  const WIDTH: real := 1200.0
  const HEIGHT: real := 700.0
  const PLAYER_RADIUS: real := 14.0
  const BULLET_LIFETIME: real := 1.2
  /** Seconds between two shots of one shooter. */
  const FIRE_RATE: real := 0.18
  const ROUND_TIME: real := 90.0
  const RESPAWN_DELAY: real := 3.0
  const MAX_HP: real := 100.0
  /** Damage of every bullet (the default of `Bullet.__init__`). */
  const BULLET_DAMAGE: real := 34.0
  /** Fraction of the damage that gets through an active shield. */
  const SHIELD_FACTOR: real := 0.45
  const SHIELD_DURATION: real := 4.0
  const SMOKE_RADIUS: real := 120.0
  const SMOKE_DURATION: real := 8.0

  datatype Vec = Vec(x: real, y: real)

  /**
   * `normalize(v)`, given the length `len` that math.hypot returns: the zero
   * vector maps to `(0, 0)`, any other vector to `v / len`.
   */
  function Normalize(v: Vec, len: real): (r: Vec)
    requires len >= 0.0 && len * len == v.x * v.x + v.y * v.y
    ensures len == 0.0 ==> r == Vec(0.0, 0.0)
    ensures len != 0.0 ==> r.x * len == v.x && r.y * len == v.y
  {
    if len == 0.0 then Vec(0.0, 0.0) else Vec(v.x / len, v.y / len)
  }

  /** A vector of non-zero length normalizes to unit length. */
  lemma NormalizeIsUnit(v: Vec, len: real)
    requires len > 0.0 && len * len == v.x * v.x + v.y * v.y
    ensures var r := Normalize(v, len); r.x * r.x + r.y * r.y == 1.0
  {
    var r := Normalize(v, len);
    calc {
      (r.x * r.x + r.y * r.y) * (len * len);
      (r.x * len) * (r.x * len) + (r.y * len) * (r.y * len);
      v.x * v.x + v.y * v.y;
      1.0 * (len * len);
    }
  }

  // ---------------------------------------------------------------------------
  // Abilities
  // ---------------------------------------------------------------------------

  /** An ability with a cooldown, last used at time `last`. */
  class Ability {
    const cooldown: real
    var last: real

    constructor (cooldown: real)
      ensures this.cooldown == cooldown && last == -999.0
    {
      this.cooldown := cooldown;
      last := -999.0;
    }

    /** `ready(now)`: the cooldown has elapsed since the last use. */
    predicate Ready(now: real)
      reads this
    {
      now - last >= cooldown
    }

    /** `trigger(now)`: use the ability now; it is not ready again before `now + cooldown`. */
    method Trigger(now: real)
      modifies this
      ensures last == now
      ensures forall t :: now <= t < now + cooldown ==> !Ready(t)
      ensures forall t :: now + cooldown <= t ==> Ready(t)
    {
      last := now;
    }
  }

  // ---------------------------------------------------------------------------
  // Players
  // ---------------------------------------------------------------------------

  /** A smoke cloud `(x, y, r, expiry)`. */
  datatype Smoke = Smoke(x: real, y: real, r: real, expiry: real)

  /** The part of a player that combat reads and writes. */
  datatype Fighter = Fighter(x: real, y: real, hp: real, alive: bool, kills: int, deaths: int,
                             respawnTime: real, shieldUntil: real)

  /** The rest of a player: velocity, weapon cooldown and smokes. */
  datatype Gear = Gear(vx: real, vy: real, fireCooldown: real, smokes: seq<Smoke>)

  /** `die(now)` on a snapshot. */
  function Died(f: Fighter, now: real): Fighter
  {
    f.(alive := false, deaths := f.deaths + 1, respawnTime := now + RESPAWN_DELAY)
  }

  /**
   * `take_damage(dmg, now)` on a snapshot: the shield lets only 45 % of the
   * damage through, and a live player whose hp drops to zero or below dies.
   */
  function Damaged(f: Fighter, dmg: real, now: real): (r: Fighter)
    ensures r.hp == f.hp - (if f.shieldUntil > now then SHIELD_FACTOR * dmg else dmg)
    ensures r.alive <==> f.alive && r.hp > 0.0
    ensures r.deaths == if f.alive && !r.alive then f.deaths + 1 else f.deaths
    ensures r.respawnTime == if f.alive && !r.alive then now + RESPAWN_DELAY else f.respawnTime
    ensures r.x == f.x && r.y == f.y && r.kills == f.kills && r.shieldUntil == f.shieldUntil
  {
    var hurt := f.(hp := f.hp - (if f.shieldUntil > now then dmg * SHIELD_FACTOR else dmg));
    if hurt.hp <= 0.0 && hurt.alive then Died(hurt, now) else hurt
  }

  /** A dead player takes damage but does not die a second time. */
  lemma DeadStayDead(f: Fighter, dmg: real, now: real)
    requires !f.alive
    ensures var r := Damaged(f, dmg, now); !r.alive && r.deaths == f.deaths && r.respawnTime == f.respawnTime
  {
  }

  /** `respawn()` on a snapshot, at the spawn point `(80 or WIDTH - 80, spawnY)`. */
  function Respawned(f: Fighter, spawnLeft: bool, spawnY: int): Fighter
  {
    f.(hp := MAX_HP, alive := true, shieldUntil := -1.0,
       x := if spawnLeft then 80.0 else WIDTH - 80.0, y := spawnY as real)
  }

  /** A live player's frame: move by `velocity * dt`, clamp to the map, switch off an elapsed shield. */
  function Moved(f: Fighter, vx: real, vy: real, dt: real, now: real): Fighter
  {
    f.(x := Clamp(f.x + vx * dt, 16.0, WIDTH - 16.0), y := Clamp(f.y + vy * dt, 16.0, HEIGHT - 16.0),
       shieldUntil := if now > f.shieldUntil then -1.0 else f.shieldUntil)
  }

  /** A live player's frame: the fire cooldown runs down, expired smokes are dropped. */
  function Cooled(g: Gear, dt: real, now: real): Gear
  {
    g.(fireCooldown := Max(0.0, g.fireCooldown - dt), smokes := Filter(g.smokes, (s: Smoke) => s.expiry > now))
  }

  /**
   * After a live frame the player is inside the map margin of 16, the fire
   * cooldown is not negative, and the smokes left are exactly the unexpired
   * ones, in their original order. Hp, life and score are untouched.
   */
  lemma LiveFrame(f: Fighter, g: Gear, dt: real, now: real)
    ensures var r, k := Moved(f, g.vx, g.vy, dt, now), Cooled(g, dt, now);
      16.0 <= r.x <= WIDTH - 16.0 && 16.0 <= r.y <= HEIGHT - 16.0 && k.fireCooldown >= 0.0 &&
      r.hp == f.hp && r.alive == f.alive && r.kills == f.kills && r.deaths == f.deaths &&
      (forall i :: 0 <= i < |k.smokes| ==> k.smokes[i].expiry > now) &&
      (forall i :: 0 <= i < |g.smokes| && g.smokes[i].expiry > now ==> g.smokes[i] in k.smokes) &&
      SubsequenceOf(k.smokes, g.smokes)
  {
    FilterKeepsOrder(g.smokes, (s: Smoke) => s.expiry > now);
  }

  class Player {
    var x: real
    var y: real
    var vx: real
    var vy: real
    var hp: real
    var fireCooldown: real
    var kills: int
    var deaths: int
    var alive: bool
    var respawnTime: real
    const dash: Ability
    const smoke: Ability
    const shield: Ability
    var shieldUntil: real
    var smokes: seq<Smoke>

    constructor (x0: real, y0: real)
      ensures Snap() == Fighter(x0, y0, MAX_HP, true, 0, 0, 0.0, -1.0)
      ensures Kit() == Gear(0.0, 0.0, 0.0, [])
      ensures fresh(dash) && fresh(smoke) && fresh(shield)
      ensures dash.cooldown == 6.0 && smoke.cooldown == 12.0 && shield.cooldown == 15.0
    {
      x, y, vx, vy := x0, y0, 0.0, 0.0;
      hp := MAX_HP;
      fireCooldown := 0.0;
      kills, deaths := 0, 0;
      alive := true;
      respawnTime := 0.0;
      dash := new Ability(6.0);
      smoke := new Ability(12.0);
      shield := new Ability(15.0);
      shieldUntil := -1.0;
      smokes := [];
    }

    function Snap(): Fighter
      reads this
    {
      Fighter(x, y, hp, alive, kills, deaths, respawnTime, shieldUntil)
    }

    function Kit(): Gear
      reads this
    {
      Gear(vx, vy, fireCooldown, smokes)
    }

    /** `die(now)`. */
    method Die(now: real)
      modifies this
      ensures Snap() == Died(old(Snap()), now) && Kit() == old(Kit())
    {
      alive := false;
      deaths := deaths + 1;
      respawnTime := now + RESPAWN_DELAY;
    }

    /** `take_damage(dmg, now)`. */
    method TakeDamage(dmg: real, now: real)
      modifies this
      ensures Snap() == Damaged(old(Snap()), dmg, now) && Kit() == old(Kit())
    {
      var d := dmg;
      if shieldUntil > now {
        d := d * SHIELD_FACTOR;
      }
      hp := hp - d;
      if hp <= 0.0 && alive {
        Die(now);
      }
    }

    /**
     * `respawn()`: full hp, alive, no shield, at the random spawn point
     * `(80 or WIDTH - 80, spawnY)`.
     */
    method Respawn(spawnLeft: bool, spawnY: int)
      requires 80 <= spawnY <= 620
      modifies this
      ensures Snap() == Respawned(old(Snap()), spawnLeft, spawnY) && Kit() == old(Kit())
    {
      hp := MAX_HP;
      alive := true;
      x, y := if spawnLeft then 80.0 else WIDTH - 80.0, spawnY as real;
      shieldUntil := -1.0;
    }

    /**
     * `update(dt, now)`. A dead player only respawns, once its respawn time
     * has come; a live one takes one frame of movement and timers.
     */
    method Update(dt: real, now: real, spawnLeft: bool, spawnY: int)
      requires 80 <= spawnY <= 620
      modifies this
      ensures !old(alive) && now >= old(respawnTime) ==>
        Snap() == Respawned(old(Snap()), spawnLeft, spawnY) && Kit() == old(Kit())
      ensures !old(alive) && now < old(respawnTime) ==> Snap() == old(Snap()) && Kit() == old(Kit())
      ensures old(alive) ==> Snap() == Moved(old(Snap()), old(vx), old(vy), dt, now) && Kit() == Cooled(old(Kit()), dt, now)
    {
      if !alive {
        if now >= respawnTime {
          Respawn(spawnLeft, spawnY);
        }
        return;
      }
      x := x + vx * dt;
      y := y + vy * dt;
      x := Clamp(x, 16.0, WIDTH - 16.0);
      y := Clamp(y, 16.0, HEIGHT - 16.0);
      fireCooldown := Max(0.0, fireCooldown - dt);
      if now > shieldUntil {
        shieldUntil := -1.0;
      }
      smokes := Filter(smokes, (s: Smoke) => s.expiry > now);
    }

    /** One iteration of the round reset: alive, no respawn timer, full hp, at `spot`. */
    method Revive(spot: Vec)
      modifies this
      ensures Snap() == Revival(old(Snap()), spot) && Kit() == old(Kit())
    {
      alive := true;
      respawnTime := 0.0;
      hp := MAX_HP;
      x, y := spot.x, spot.y;
    }

    /** The Q key: when the shield ability is ready, use it and shield the player for four seconds. */
    method ActivateShield(now: real)
      modifies this, shield
      ensures old(shield.Ready(now)) ==> shield.last == now && shieldUntil == now + SHIELD_DURATION
      ensures !old(shield.Ready(now)) ==> shield.last == old(shield.last) && shieldUntil == old(shieldUntil)
      ensures old(Snap()).(shieldUntil := shieldUntil) == Snap() && Kit() == old(Kit())
    {
      if shield.Ready(now) {
        shield.Trigger(now);
        shieldUntil := now + SHIELD_DURATION;
      }
    }

    /** The right mouse button: when the smoke ability is ready, drop an eight-second smoke at the cursor. */
    method DeploySmoke(mx: real, my: real, now: real)
      modifies this, smoke
      ensures old(smoke.Ready(now)) ==>
        smoke.last == now && smokes == old(smokes) + [Smoke(mx, my, SMOKE_RADIUS, now + SMOKE_DURATION)]
      ensures !old(smoke.Ready(now)) ==> smoke.last == old(smoke.last) && smokes == old(smokes)
      ensures Snap() == old(Snap()) && old(Kit()).(smokes := smokes) == Kit()
    {
      if smoke.Ready(now) {
        smokes := smokes + [Smoke(mx, my, SMOKE_RADIUS, now + SMOKE_DURATION)];
        smoke.Trigger(now);
      }
    }
  }

  /** No player appears twice in the list. */
  predicate Distinct(ps: seq<Player>)
  {
    forall i, j :: 0 <= i < j < |ps| ==> ps[i] != ps[j]
  }

  /** The combat snapshots of the players, in list order. */
  function Fighters(ps: seq<Player>): (r: seq<Fighter>)
    reads set p | p in ps
    ensures |r| == |ps| && forall k :: 0 <= k < |ps| ==> r[k] == ps[k].Snap()
  {
    seq(|ps|, k requires 0 <= k < |ps| reads set p | p in ps => ps[k].Snap())
  }

  /** The other state of the players, in list order. */
  function Kits(ps: seq<Player>): (r: seq<Gear>)
    reads set p | p in ps
    ensures |r| == |ps| && forall k :: 0 <= k < |ps| ==> r[k] == ps[k].Kit()
  {
    seq(|ps|, k requires 0 <= k < |ps| reads set p | p in ps => ps[k].Kit())
  }

  // ---------------------------------------------------------------------------
  // Bullets
  // ---------------------------------------------------------------------------

  datatype Bullet = Bullet(x: real, y: real, vx: real, vy: real, owner: Player, spawn: real, damage: real)

  /** `Bullet.update(dt)`: straight-line motion. */
  function Fly(b: Bullet, dt: real): (r: Bullet)
    ensures r.owner == b.owner && r.spawn == b.spawn && r.damage == b.damage
  {
    Bullet(b.x + b.vx * dt, b.y + b.vy * dt, b.vx, b.vy, b.owner, b.spawn, b.damage)
  }

  /** `is_expired(now)`: older than BULLET_LIFETIME. */
  predicate Expired(b: Bullet, now: real)
  {
    now - b.spawn > BULLET_LIFETIME
  }

  /** `bullet_hits_player(b, p)`: `p` is alive and the bullet lies within its radius. */
  predicate Hits(b: Bullet, f: Fighter)
  {
    f.alive && (b.x - f.x) * (b.x - f.x) + (b.y - f.y) * (b.y - f.y) <= PLAYER_RADIUS * PLAYER_RADIUS
  }

  /** `bullet_hits_wall(b)`: scan the walls for one containing the bullet. */
  method BulletHitsWall(b: Bullet, walls: seq<Rect>) returns (hit: bool)
    ensures hit <==> AnyContains(walls, b.x, b.y)
  {
    for k := 0 to |walls|
      invariant forall i :: 0 <= i < k ==> !walls[i].Contains(b.x, b.y)
    {
      if walls[k].Contains(b.x, b.y) {
        return true;
      }
    }
    return false;
  }

  /** Position of `p` in `ps`. */
  function IndexOf(ps: seq<Player>, p: Player): (r: nat)
    requires p in ps
    ensures r < |ps| && ps[r] == p
    ensures forall k :: 0 <= k < r ==> ps[k] != p
  {
    if ps[0] == p then 0 else 1 + IndexOf(ps[1..], p)
  }

  /**
   * The first target from index `k` on that the bullet hits, skipping its
   * owner; `|ts|` when there is none.
   */
  function Target(b: Bullet, ts: seq<Player>, fs: seq<Fighter>, k: nat): (r: nat)
    requires |fs| == |ts| && k <= |ts|
    ensures k <= r <= |ts|
    ensures r < |ts| ==> ts[r] != b.owner && Hits(b, fs[r])
    ensures forall j :: k <= j < r ==> ts[j] == b.owner || !Hits(b, fs[j])
    decreases |ts| - k
  {
    if k == |ts| then k
    else if ts[k] != b.owner && Hits(b, fs[k]) then k
    else Target(b, ts, fs, k + 1)
  }

  /** The target loop's effect: the fighters afterwards and whether the bullet struck someone. */
  datatype Impact = Impact(fighters: seq<Fighter>, hit: bool)

  /** One more kill for the fighter at `o`. */
  function Credit(fs: seq<Fighter>, o: nat): (r: seq<Fighter>)
    requires o < |fs|
  {
    fs[o := fs[o].(kills := fs[o].kills + 1)]
  }

  /**
   * The inner loop of the bullet loop: the first hit target takes the
   * bullet's damage, and if that killed it the owner scores a kill.
   */
  function Strike(ts: seq<Player>, fs: seq<Fighter>, m: Bullet, now: real): Impact
    requires |fs| == |ts| && m.owner in ts
  {
    var j := Target(m, ts, fs, 0);
    if j == |ts| then Impact(fs, false)
    else
      var hurt := fs[j := Damaged(fs[j], m.damage, now)];
      Impact(if hurt[j].alive then hurt else Credit(hurt, IndexOf(ts, m.owner)), true)
  }

  /** The effect of one bullet in the loop: the fighters afterwards and the bullet if it stays. */
  datatype Outcome = Outcome(fighters: seq<Fighter>, kept: seq<Bullet>)

  /**
   * One iteration of the bullet loop: move the bullet; drop it if it is
   * stale or inside a wall; otherwise let it strike, and drop it if it hit.
   */
  function Step(ts: seq<Player>, fs: seq<Fighter>, b: Bullet, walls: seq<Rect>, dt: real, now: real): Outcome
    requires |fs| == |ts| && b.owner in ts
  {
    var m := Fly(b, dt);
    if Expired(m, now) || AnyContains(walls, m.x, m.y) then Outcome(fs, [])
    else
      var s := Strike(ts, fs, m, now);
      Outcome(s.fighters, if s.hit then [] else [m])
  }

  /** Every bullet of `bs` is owned by one of `ts`. */
  predicate OwnedBy(bs: seq<Bullet>, ts: seq<Player>)
  {
    forall i :: 0 <= i < |bs| ==> bs[i].owner in ts
  }

  /** The whole bullet loop, bullets taken in list order. */
  function Sweep(ts: seq<Player>, fs: seq<Fighter>, bs: seq<Bullet>, walls: seq<Rect>, dt: real, now: real): (r: Outcome)
    requires |fs| == |ts| && OwnedBy(bs, ts)
    ensures |r.fighters| == |ts| && |r.kept| <= |bs| && OwnedBy(r.kept, ts)
    decreases |bs|
  {
    if bs == [] then Outcome(fs, [])
    else
      var o := Sweep(ts, fs, bs[..|bs| - 1], walls, dt, now);
      var s := Step(ts, o.fighters, bs[|bs| - 1], walls, dt, now);
      Outcome(s.fighters, o.kept + s.kept)
  }

  /** The loop one bullet further. */
  lemma SweepNext(ts: seq<Player>, fs: seq<Fighter>, bs: seq<Bullet>, i: nat, walls: seq<Rect>, dt: real, now: real)
    requires |fs| == |ts| && OwnedBy(bs, ts) && i < |bs|
    ensures OwnedBy(bs[..i], ts) && OwnedBy(bs[..i + 1], ts)
    ensures var o := Sweep(ts, fs, bs[..i], walls, dt, now); var s := Step(ts, o.fighters, bs[i], walls, dt, now);
      Sweep(ts, fs, bs[..i + 1], walls, dt, now) == Outcome(s.fighters, o.kept + s.kept)
  {
    assert bs[..i + 1][..i] == bs[..i];
  }

  // ---------------------------------------------------------------------------
  // What the bullet loop guarantees
  // ---------------------------------------------------------------------------

  /** `a` and `b` agree on everything a bullet can change except kills. */
  predicate SameHealth(a: Fighter, b: Fighter)
  {
    a.hp == b.hp && a.alive == b.alive && a.deaths == b.deaths && a.respawnTime == b.respawnTime
  }

  /**
   * A bullet never wounds its owner, wounds nobody but its first target, and
   * the owner's kills rise by one exactly when that target died of the hit.
   */
  lemma StrikeWoundsOnlyTarget(ts: seq<Player>, fs: seq<Fighter>, m: Bullet, now: real)
    requires |fs| == |ts| && m.owner in ts && Distinct(ts)
    ensures var r := Strike(ts, fs, m, now); var j := Target(m, ts, fs, 0);
      |r.fighters| == |ts| &&
      (r.hit <==> j < |ts|) &&
      (forall k :: 0 <= k < |ts| && k != j ==> SameHealth(r.fighters[k], fs[k])) &&
      (forall k :: 0 <= k < |ts| && ts[k] == m.owner ==> SameHealth(r.fighters[k], fs[k])) &&
      (j < |ts| ==> r.fighters[j] == Damaged(fs[j], m.damage, now).(kills := r.fighters[j].kills)) &&
      (forall k :: 0 <= k < |ts| ==>
        r.fighters[k].kills == fs[k].kills + (if ts[k] == m.owner && r.hit && !r.fighters[j].alive then 1 else 0))
  {
    var j := Target(m, ts, fs, 0);
    if j < |ts| {
      var o := IndexOf(ts, m.owner);
      assert o != j;
      forall k | 0 <= k < |ts| && ts[k] == m.owner
        ensures k == o
      {
      }
    }
  }

  /** Kills minus deaths, summed over a list of fighters. */
  function Balance(fs: seq<Fighter>): int
    decreases |fs|
  {
    if fs == [] then 0 else Balance(fs[..|fs| - 1]) + (fs[|fs| - 1].kills - fs[|fs| - 1].deaths)
  }

  /** Replacing one fighter changes the balance by that fighter's difference. */
  lemma {:induction false} BalanceUpdate(fs: seq<Fighter>, i: nat, f: Fighter)
    requires i < |fs|
    ensures Balance(fs[i := f]) == Balance(fs) - (fs[i].kills - fs[i].deaths) + (f.kills - f.deaths)
    decreases |fs|
  {
    var n := |fs| - 1;
    if i < n {
      assert fs[i := f][..n] == fs[..n][i := f];
      BalanceUpdate(fs[..n], i, f);
    } else {
      assert fs[i := f][..n] == fs[..n];
    }
  }

  /** A hit on the live fighter `j` credited to fighter `o` leaves kills minus deaths unchanged. */
  lemma HitBalances(fs: seq<Fighter>, j: nat, o: nat, dmg: real, now: real)
    requires j < |fs| && o < |fs| && fs[j].alive
    ensures var hurt := fs[j := Damaged(fs[j], dmg, now)];
      Balance(if hurt[j].alive then hurt else Credit(hurt, o)) == Balance(fs)
  {
    var d := Damaged(fs[j], dmg, now);
    var hurt := fs[j := d];
    BalanceUpdate(fs, j, d);
    if !d.alive {
      BalanceUpdate(hurt, o, hurt[o].(kills := hurt[o].kills + 1));
    }
  }

  /** Every death a bullet causes is credited as exactly one kill, so kills minus deaths is unchanged. */
  lemma StrikeBalances(ts: seq<Player>, fs: seq<Fighter>, m: Bullet, now: real)
    requires |fs| == |ts| && m.owner in ts
    ensures Balance(Strike(ts, fs, m, now).fighters) == Balance(fs)
  {
    var j := Target(m, ts, fs, 0);
    if j < |ts| {
      HitBalances(fs, j, IndexOf(ts, m.owner), m.damage, now);
    }
  }

  /** Over a whole frame of bullets, kills minus deaths summed over all players is unchanged. */
  lemma {:induction false} SweepBalances(ts: seq<Player>, fs: seq<Fighter>, bs: seq<Bullet>, walls: seq<Rect>, dt: real, now: real)
    requires |fs| == |ts| && OwnedBy(bs, ts)
    ensures Balance(Sweep(ts, fs, bs, walls, dt, now).fighters) == Balance(fs)
    decreases |bs|
  {
    if bs != [] {
      var o := Sweep(ts, fs, bs[..|bs| - 1], walls, dt, now);
      SweepBalances(ts, fs, bs[..|bs| - 1], walls, dt, now);
      var m := Fly(bs[|bs| - 1], dt);
      if !(Expired(m, now) || AnyContains(walls, m.x, m.y)) {
        StrikeBalances(ts, o.fighters, m, now);
      }
    }
  }

  /**
   * A bullet either leaves the list or stays, moved; it stays exactly when it
   * is neither stale nor inside a wall and hits no one but its owner.
   */
  lemma StepKept(ts: seq<Player>, fs: seq<Fighter>, b: Bullet, walls: seq<Rect>, dt: real, now: real)
    requires |fs| == |ts| && b.owner in ts
    ensures var s := Step(ts, fs, b, walls, dt, now); var m := Fly(b, dt);
      (s.kept == [] || s.kept == [m]) &&
      (s.kept == [m] <==> !Expired(m, now) && !AnyContains(walls, m.x, m.y) && Target(m, ts, fs, 0) == |ts|)
  {
  }

  /** The bullets moved by `dt`, in list order. */
  function Flown(bs: seq<Bullet>, dt: real): seq<Bullet>
  {
    Map(bs, (b: Bullet) => Fly(b, dt))
  }

  /** The surviving bullets are the moved bullets minus the removed ones, in their original order. */
  lemma {:induction false} SweepKeepsOrder(ts: seq<Player>, fs: seq<Fighter>, bs: seq<Bullet>, walls: seq<Rect>, dt: real, now: real)
    requires |fs| == |ts| && OwnedBy(bs, ts)
    ensures SubsequenceOf(Sweep(ts, fs, bs, walls, dt, now).kept, Flown(bs, dt))
    decreases |bs|
  {
    var r := Sweep(ts, fs, bs, walls, dt, now);
    if bs == [] {
      assert r.kept == Select(Flown(bs, dt), []);
    } else {
      var n := |bs| - 1;
      var init := bs[..n];
      var o := Sweep(ts, fs, init, walls, dt, now);
      SweepKeepsOrder(ts, fs, init, walls, dt, now);
      var m := Fly(bs[n], dt);
      var s := Step(ts, o.fighters, bs[n], walls, dt, now);
      StepKept(ts, o.fighters, bs[n], walls, dt, now);
      var keep := s.kept != [];
      assert r.kept == o.kept + (if keep then [m] else []);
      assert Flown(bs, dt) == Flown(init, dt) + [m];
      SubsequenceSnoc(o.kept, Flown(init, dt), m, keep);
    }
  }

  /** None of `bs` is stale or inside a wall. */
  predicate InPlay(bs: seq<Bullet>, walls: seq<Rect>, now: real)
  {
    forall i :: 0 <= i < |bs| ==> !Expired(bs[i], now) && !AnyContains(walls, bs[i].x, bs[i].y)
  }

  /** No surviving bullet is stale or inside a wall. */
  lemma {:induction false} SweepDropsStale(ts: seq<Player>, fs: seq<Fighter>, bs: seq<Bullet>, walls: seq<Rect>, dt: real, now: real)
    requires |fs| == |ts| && OwnedBy(bs, ts)
    ensures InPlay(Sweep(ts, fs, bs, walls, dt, now).kept, walls, now)
    decreases |bs|
  {
    if bs != [] {
      var n := |bs| - 1;
      var o := Sweep(ts, fs, bs[..n], walls, dt, now);
      SweepDropsStale(ts, fs, bs[..n], walls, dt, now);
      StepKept(ts, o.fighters, bs[n], walls, dt, now);
    }
  }

  // ---------------------------------------------------------------------------
  // The game
  // ---------------------------------------------------------------------------

  /** The four wall rectangles of the map. */
  const MAP: seq<Rect> := [Rect(300.0, 120.0, 40.0, 280.0), Rect(600.0, 350.0, 420.0, 40.0),
                           Rect(900.0, 70.0, 40.0, 180.0), Rect(120.0, 470.0, 220.0, 40.0)]

  class Game {
    const player: Player
    const bots: seq<Player>
    const walls: seq<Rect>
    var bullets: seq<Bullet>
    var roundStart: real
    var roundEnd: real

    /**
     * The initial state: the player at (120, HEIGHT // 2), three bots at the
     * random points `botSpots`, the four walls, no bullets, and a round
     * starting at `clock`.
     */
    constructor (clock: real, botSpots: seq<Vec>)
      requires |botSpots| == 3
      ensures Valid() && bullets == [] && walls == MAP
      ensures roundStart == clock && roundEnd == clock + ROUND_TIME
      ensures player.Snap() == Fighter(120.0, 350.0, MAX_HP, true, 0, 0, 0.0, -1.0)
      ensures |bots| == 3 && forall k :: 0 <= k < 3 ==>
        bots[k].Snap() == Fighter(botSpots[k].x, botSpots[k].y, MAX_HP, true, 0, 0, 0.0, -1.0)
    {
      player := new Player(120.0, 350.0);
      var b0 := new Player(botSpots[0].x, botSpots[0].y);
      var b1 := new Player(botSpots[1].x, botSpots[1].y);
      var b2 := new Player(botSpots[2].x, botSpots[2].y);
      bots := [b0, b1, b2];
      walls := MAP;
      bullets := [];
      roundStart := clock;
      roundEnd := clock + ROUND_TIME;
    }

    /** `[player] + bots`: everyone a bullet can hit. */
    function Targets(): seq<Player>
    {
      [player] + bots
    }

    /** The players are distinct objects and every bullet belongs to one of them. */
    predicate Valid()
      reads this
    {
      Distinct(Targets()) && OwnedBy(bullets, Targets())
    }

    /**
     * `shoot_from(shooter, target, now)`: nothing when the shooter is dead or
     * still cooling down; otherwise one new bullet at the shooter's position,
     * moving with `vel`, spawned at `clock`, and a fresh cooldown.
     */
    method ShootFrom(shooter: Player, vel: Vec, clock: real)
      requires Valid() && shooter in Targets()
      modifies this`bullets, shooter
      ensures Valid()
      ensures !old(shooter.alive) || old(shooter.fireCooldown) > 0.0 ==>
        bullets == old(bullets) && shooter.fireCooldown == old(shooter.fireCooldown)
      ensures old(shooter.alive) && old(shooter.fireCooldown) <= 0.0 ==>
        bullets == old(bullets) + [Bullet(old(shooter.x), old(shooter.y), vel.x, vel.y, shooter, clock, BULLET_DAMAGE)] &&
        shooter.fireCooldown == FIRE_RATE
      ensures shooter.Snap() == old(shooter.Snap()) && old(shooter.Kit()).(fireCooldown := shooter.fireCooldown) == shooter.Kit()
    {
      if !shooter.alive {
        return;
      }
      if shooter.fireCooldown > 0.0 {
        return;
      }
      bullets := bullets + [Bullet(shooter.x, shooter.y, vel.x, vel.y, shooter, clock, BULLET_DAMAGE)];
      shooter.fireCooldown := FIRE_RATE;
    }

    /**
     * The target loop for one moved bullet `m`: the first player other than
     * the owner that `m` hits takes its damage, the owner is credited if that
     * killed the player, and the loop stops.
     */
    method StrikeFirst(m: Bullet, now: real) returns (hit: bool)
      requires Distinct(Targets()) && m.owner in Targets()
      modifies set t | t in Targets()
      ensures var s := Strike(Targets(), old(Fighters(Targets())), m, now);
        Fighters(Targets()) == s.fighters && hit == s.hit
      ensures Kits(Targets()) == old(Kits(Targets()))
    {
      var ts := Targets();
      ghost var fs := Fighters(ts);
      for k := 0 to |ts|
        invariant Fighters(ts) == fs && Kits(ts) == old(Kits(ts))
        invariant Target(m, ts, fs, 0) == Target(m, ts, fs, k)
      {
        var t := ts[k];
        if t != m.owner && Hits(m, t.Snap()) {
          Wound(ts, k, m, now);
          return true;
        }
      }
      return false;
    }

    /** Target `k` takes the bullet's damage; if it died, the owner gets the kill. */
    method Wound(ts: seq<Player>, k: nat, m: Bullet, now: real)
      requires ts == Targets() && Distinct(ts) && m.owner in ts && k < |ts| && ts[k] != m.owner
      modifies set t | t in ts
      ensures var hurt := old(Fighters(ts))[k := Damaged(old(ts[k].Snap()), m.damage, now)];
        Fighters(ts) == if hurt[k].alive then hurt else Credit(hurt, IndexOf(ts, m.owner))
      ensures Kits(ts) == old(Kits(ts))
    {
      ghost var fs, kits := Fighters(ts), Kits(ts);
      ghost var o := IndexOf(ts, m.owner);
      var t := ts[k];
      t.TakeDamage(m.damage, now);
      ghost var hurt := fs[k := Damaged(fs[k], m.damage, now)];
      forall i | 0 <= i < |ts|
        ensures ts[i].Snap() == hurt[i] && ts[i].Kit() == kits[i]
      {
        if i != k {
          assert ts[i] != ts[k];
        }
      }
      assert Fighters(ts) == hurt;
      if !t.alive {
        var owner := m.owner;
        owner.kills := owner.kills + 1;
        forall i | 0 <= i < |ts|
          ensures ts[i].Snap() == Credit(hurt, o)[i] && ts[i].Kit() == kits[i]
        {
          if i != o {
            assert ts[i] != ts[o];
          }
        }
        assert Fighters(ts) == Credit(hurt, o);
      }
      assert Kits(ts) == kits;
    }

    /**
     * One pass of the bullet loop over the bullet `b` at index `pos` of
     * `bullets`: move it in place, then remove it when stale, inside a wall,
     * or after hitting someone. `kept` tells whether it is still there.
     */
    method Advance(b: Bullet, pos: nat, dt: real, now: real) returns (kept: bool)
      requires Distinct(Targets()) && b.owner in Targets() && pos < |bullets|
      modifies this`bullets, set t | t in Targets()
      ensures var s := Step(Targets(), old(Fighters(Targets())), b, walls, dt, now);
        Fighters(Targets()) == s.fighters && bullets == old(bullets[..pos]) + s.kept + old(bullets[pos + 1..]) &&
        (kept <==> s.kept != [])
      ensures Kits(Targets()) == old(Kits(Targets()))
    {
      ghost var ts, fs, kits := Targets(), Fighters(Targets()), Kits(Targets());
      ghost var head, tail := bullets[..pos], bullets[pos + 1..];
      var m := Fly(b, dt);
      bullets := bullets[pos := m];
      assert bullets[..pos] == head && bullets[pos + 1..] == tail;
      var gone := Expired(m, now);
      if !gone {
        gone := BulletHitsWall(m, walls);
      }
      if gone {
        Remove(pos);
        assert Step(ts, fs, b, walls, dt, now) == Outcome(fs, []);
        return false;
      }
      assert Fighters(ts) == fs && Kits(ts) == kits;
      kept := StrikeAt(m, pos, now);
      ghost var s := Strike(ts, fs, m, now);
      assert Step(ts, fs, b, walls, dt, now) == Outcome(s.fighters, if s.hit then [] else [m]);
      assert bullets == head + (if s.hit then [] else [m]) + tail;
    }

    /** The target loop for the moved bullet `m` at index `pos`, which is removed if it hit. */
    method StrikeAt(m: Bullet, pos: nat, now: real) returns (kept: bool)
      requires Distinct(Targets()) && m.owner in Targets() && pos < |bullets|
      modifies this`bullets, set t | t in Targets()
      ensures var s := Strike(Targets(), old(Fighters(Targets())), m, now);
        Fighters(Targets()) == s.fighters && kept == !s.hit &&
        bullets == if s.hit then old(bullets[..pos]) + old(bullets[pos + 1..]) else old(bullets)
      ensures Kits(Targets()) == old(Kits(Targets()))
    {
      var hit := StrikeFirst(m, now);
      if hit {
        Remove(pos);
      }
      return !hit;
    }

    /** `bullets.remove(b)` for the bullet `b` at index `pos`. */
    method Remove(pos: nat)
      requires pos < |bullets|
      modifies this`bullets
      ensures bullets == old(bullets[..pos]) + old(bullets[pos + 1..])
    {
      bullets := bullets[..pos] + bullets[pos + 1..];
    }

    /**
     * The bullet loop of the main loop, over a copy of `bullets` in list
     * order; `pos` is where the current bullet sits in the shrinking list.
     */
    method ProcessBullets(dt: real, now: real)
      requires Valid()
      modifies this`bullets, set t | t in Targets()
      ensures Valid()
      ensures var o := Sweep(Targets(), old(Fighters(Targets())), old(bullets), walls, dt, now);
        Fighters(Targets()) == o.fighters && bullets == o.kept
      ensures Kits(Targets()) == old(Kits(Targets()))
    {
      var ts := Targets();
      ghost var fs0 := Fighters(ts);
      var pending := bullets;
      var pos := 0;
      ghost var acc := Outcome(fs0, []);
      for i := 0 to |pending|
        invariant OwnedBy(pending, ts) && Distinct(ts)
        invariant acc == Sweep(ts, fs0, pending[..i], walls, dt, now)
        invariant Fighters(ts) == acc.fighters
        invariant bullets == acc.kept + pending[i..] && pos == |acc.kept|
        invariant Kits(ts) == old(Kits(ts))
      {
        ghost var head, tail := bullets[..pos], bullets[pos + 1..];
        assert head == acc.kept && tail == pending[i + 1..];
        ghost var st := Step(ts, acc.fighters, pending[i], walls, dt, now);
        SweepNext(ts, fs0, pending, i, walls, dt, now);
        StepKept(ts, acc.fighters, pending[i], walls, dt, now);
        var kept := Advance(pending[i], pos, dt, now);
        assert bullets == head + st.kept + tail;
        acc := Outcome(st.fighters, head + st.kept);
        assert bullets == acc.kept + tail;
        if kept {
          pos := pos + 1;
        }
      }
      assert pending[..|pending|] == pending;
    }

    /**
     * The round reset: once `now` reaches the end of the round, every player
     * is revived with full hp at the random point `spots[k]`, all bullets are
     * cleared and a new 90-second round starts.
     */
    method RoundReset(now: real, spots: seq<Vec>)
      requires Valid() && |spots| == |Targets()|
      modifies this`bullets, this`roundStart, this`roundEnd, set t | t in Targets()
      ensures Valid()
      ensures old(now >= roundEnd) ==>
        bullets == [] && roundStart == now && roundEnd == now + ROUND_TIME &&
        Fighters(Targets()) == Revived(old(Fighters(Targets())), spots)
      ensures !old(now >= roundEnd) ==>
        bullets == old(bullets) && roundStart == old(roundStart) && roundEnd == old(roundEnd) &&
        Fighters(Targets()) == old(Fighters(Targets()))
      ensures Kits(Targets()) == old(Kits(Targets()))
    {
      if now >= roundEnd {
        ReviveAll(Targets(), spots);
        bullets := [];
        roundStart := now;
        roundEnd := roundStart + ROUND_TIME;
      }
    }
  }

  /** The loop of the round reset over `[player] + bots`. */
  method ReviveAll(ts: seq<Player>, spots: seq<Vec>)
    requires Distinct(ts) && |spots| == |ts|
    modifies set t | t in ts
    ensures Fighters(ts) == Revived(old(Fighters(ts)), spots)
    ensures Kits(ts) == old(Kits(ts))
  {
    ghost var fs, kits := Fighters(ts), Kits(ts);
    for k := 0 to |ts|
      invariant forall i :: 0 <= i < k ==> ts[i].Snap() == Revival(fs[i], spots[i])
      invariant forall i :: k <= i < |ts| ==> ts[i].Snap() == fs[i]
      invariant forall i :: 0 <= i < |ts| ==> ts[i].Kit() == kits[i]
    {
      ghost var before, gear := Fighters(ts), Kits(ts);
      ts[k].Revive(spots[k]);
      forall i | 0 <= i < |ts| && i != k
        ensures ts[i].Snap() == before[i] && ts[i].Kit() == gear[i]
      {
        assert ts[i] != ts[k];
      }
    }
  }

  /** One player revived by the round reset at `spot`; kills, deaths and shield are kept. */
  function Revival(f: Fighter, spot: Vec): Fighter
  {
    f.(alive := true, respawnTime := 0.0, hp := MAX_HP, x := spot.x, y := spot.y)
  }

  /** The round reset applied to every player. */
  function Revived(fs: seq<Fighter>, spots: seq<Vec>): (r: seq<Fighter>)
    requires |spots| == |fs|
    ensures |r| == |fs| && forall k :: 0 <= k < |fs| ==> r[k] == Revival(fs[k], spots[k])
  {
    seq(|fs|, k requires 0 <= k < |fs| => Revival(fs[k], spots[k]))
  }

  /** After a reset every player is alive with full hp, and the score sheet is untouched. */
  lemma {:induction false} ResetKeepsScores(fs: seq<Fighter>, spots: seq<Vec>)
    requires |spots| == |fs|
    ensures forall k :: 0 <= k < |fs| ==> Revived(fs, spots)[k].alive && Revived(fs, spots)[k].hp == MAX_HP
    ensures Balance(Revived(fs, spots)) == Balance(fs)
    decreases |fs|
  {
    if fs != [] {
      var n := |fs| - 1;
      assert Revived(fs, spots)[..n] == Revived(fs[..n], spots[..n]);
      ResetKeepsScores(fs[..n], spots[..n]);
    }
  }
}
