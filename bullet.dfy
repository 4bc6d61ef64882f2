/** The bullet (`entities/bullet.py`): flies in a straight line at a fixed velocity, is
    culled 50 pixels past the screen edge, and dies on its first hit. */
module Bullets {
  import opened Numbers
  import opened Geometry
  import opened Settings
  import opened Zombies

  /** The cull margin around the screen. */
  const Margin: real := 50.0

  /** The bullet's radius for the hit test. */
  const BulletRadius: real := 5.0

  /** A coordinate after moving for dt at speed v. */
  function Travel(p: real, v: real, dt: real): real {
    p + v * dt
  }

  /** The position lies more than the margin outside the screen. */
  predicate Offscreen(x: real, y: real, screenWidth: int, screenHeight: int) {
    x < -Margin || x > screenWidth as real + Margin || y < -Margin || y > screenHeight as real + Margin
  }

  /** `(dx / distance) * speed`: one velocity component toward a target at `distance`. */
  function Toward(delta: real, distance: real, speed: real): real
    requires distance != 0.0
  {
    delta / distance * speed
  }

  /** The bullet flies from (startX, startY) toward (targetX, targetY) at `speed`, or
      stands still when the two points coincide. */
  predicate Aimed(b: Bullet, startX: real, startY: real, targetX: real, targetY: real, speed: real, m: MathLib)
    reads b
  {
    var dx, dy := targetX - startX, targetY - startY;
    var d := m.hypot(dx, dy);
    if d > 0.0 then b.vx == Toward(dx, d, speed) && b.vy == Toward(dy, d, speed)
    else b.vx == 0.0 && b.vy == 0.0
  }

  /** What `check_collision` reads and writes of the bullet. */
  datatype Shot = Shot(alive: bool, pierceCount: int)

  /** `check_collision` seen from the bullet: it strikes iff it and its target are alive
      and touching; a strike counts one pierce and, from a non-negative count, kills it. */
  function Strike(s: Shot, targetAlive: bool, touching: bool): (r: (Shot, bool))
    ensures r.1 <==> s.alive && targetAlive && touching
    ensures r.1 ==> r.0.pierceCount == s.pierceCount + 1
    ensures r.1 && s.pierceCount >= 0 ==> !r.0.alive
    ensures !r.1 ==> r.0 == s
  {
    if !s.alive || !targetAlive then (s, false)
    else if touching then
      var pierced := s.pierceCount + 1;
      (Shot(if pierced >= 1 then false else s.alive, pierced), true)
    else (s, false)
  }

  /** The bullet after `check_collision` against a sequence of (target alive, touching)
      situations, and how many of them it struck. */
  function StrikeAll(s: Shot, attempts: seq<(bool, bool)>): (Shot, nat) {
    if |attempts| == 0 then (s, 0)
    else
      var (mid, hits) := StrikeAll(s, attempts[..|attempts| - 1]);
      var (last, hit) := Strike(mid, attempts[|attempts| - 1].0, attempts[|attempts| - 1].1);
      (last, hits + if hit then 1 else 0)
  }

  /** A bullet strikes at most once in its life, a dead one never, and every strike is one
      pierce. */
  lemma {:induction false} AtMostOneVictim(s: Shot, attempts: seq<(bool, bool)>)
    requires s.pierceCount >= 0
    ensures StrikeAll(s, attempts).1 <= 1
    ensures !s.alive ==> StrikeAll(s, attempts).1 == 0 && StrikeAll(s, attempts).0 == s
    ensures StrikeAll(s, attempts).0.pierceCount == s.pierceCount + StrikeAll(s, attempts).1
    ensures StrikeAll(s, attempts).1 == 1 ==> !StrikeAll(s, attempts).0.alive
  {
    if |attempts| > 0 {
      AtMostOneVictim(s, attempts[..|attempts| - 1]);
    }
  }

  class Bullet {
    var x: real
    var y: real
    const damage: real
    const radius: real
    const color: Color
    const vx: real
    const vy: real
    var alive: bool
    var pierceCount: int

    function State(): Shot
      reads this
    {
      Shot(alive, pierceCount)
    }

    /** `Bullet(start_x, start_y, target_x, target_y, damage)` with BULLET_SPEED given as
        `bulletSpeed`: aimed at the target, or standing still when the target is the start. */
    constructor(startX: real, startY: real, targetX: real, targetY: real, damage: real,
                bulletSpeed: real, color: Color, m: MathLib)
      ensures x == startX && y == startY && this.damage == damage && radius == BulletRadius
      ensures this.color == color && alive && pierceCount == 0
      ensures Aimed(this, startX, startY, targetX, targetY, bulletSpeed, m)
      ensures m.Valid() && targetX == startX && targetY == startY ==> vx == 0.0 && vy == 0.0
    {
      x, y := startX, startY;
      this.damage := damage;
      radius := BulletRadius;
      this.color := color;
      var dx, dy := targetX - startX, targetY - startY;
      var distance := m.hypot(dx, dy);
      if m.Valid() {
        HypotPositive(m, dx, dy);
      }
      if distance > 0.0 {
        vx := Toward(dx, distance, bulletSpeed);
        vy := Toward(dy, distance, bulletSpeed);
      } else {
        vx, vy := 0.0, 0.0;
      }
      alive := true;
      pierceCount := 0;
    }

    /** `update(dt, w, h)`: move, then die once off screen; the result is whether the
        bullet is still alive. */
    method Update(dt: real, screenWidth: int, screenHeight: int) returns (stillAlive: bool)
      modifies this`x, this`y, this`alive
      ensures x == Travel(old(x), vx, dt) && y == Travel(old(y), vy, dt)
      ensures alive == (old(alive) && !Offscreen(x, y, screenWidth, screenHeight))
      ensures stillAlive == alive
    {
      x := x + vx * dt;
      y := y + vy * dt;
      if Offscreen(x, y, screenWidth, screenHeight) {
        alive := false;
      }
      stillAlive := alive;
    }

    /** `check_collision(zombie)`: a strike deals `damage` to the zombie exactly once;
        anything else changes neither the bullet nor the zombie. */
    method CheckCollision(z: Zombie, m: MathLib) returns (hit: bool)
      modifies this`pierceCount, this`alive, z`health, z`alive
      ensures (State(), hit) == Strike(old(State()), old(z.alive), CircleHits(m, x, y, radius, z.rect))
      ensures hit ==> z.Vital() == Hurt(old(z.Vital()), damage).0
      ensures !hit ==> z.health == old(z.health) && z.alive == old(z.alive)
    {
      if !alive || !z.alive {
        return false;
      }
      var cx := Clamp(x, z.rect.left, z.rect.Right());
      var cy := Clamp(y, z.rect.top, z.rect.Bottom());
      var distance := m.hypot(x - cx, y - cy);
      if distance < radius {
        var _ := z.TakeDamage(damage);
        pierceCount := pierceCount + 1;
        if pierceCount >= 1 {
          alive := false;
        }
        return true;
      }
      return false;
    }
  }

  /** The hit test on squared distances: a live bullet strikes a live zombie iff the
      squared gap from its centre to the zombie's box is below 25. */
  lemma HitIffSquare(m: MathLib, x: real, y: real, box: Rect)
    requires m.Valid()
    ensures CircleHits(m, x, y, BulletRadius, box) <==> BoxGap2(x, y, box) < 25.0
  {
    CircleHitsIffSquare(m, x, y, BulletRadius, box);
  }
}
