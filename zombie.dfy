/** The zombie enemy (`entities/zombie.py`): stats fixed by its type, health that only
    goes down and bottoms out at 0 on death, and a chase step toward the player. */
module Zombies {
  import opened Numbers
  import opened Geometry
  import opened Settings

  /** The zombie types the spawner creates ("basic", "fast", "tank"). */
  datatype ZombieKind = Basic | Fast | Tank

  datatype ZombieStats = ZombieStats(maxHealth: int, speed: real, color: Color, expValue: real, damage: int)

  /** The stat table of `Zombie.__init__`. */
  function StatsFor(kind: ZombieKind, cfg: Config): ZombieStats {
    match kind
    case Basic => ZombieStats(cfg.zombieBaseHealth, cfg.zombieSpeed, Color(50, 150, 50), cfg.expBaseValue, 10)
    case Fast => ZombieStats(cfg.zombieBaseHealth / 2, cfg.zombieSpeed * 1.8, Color(150, 150, 50), cfg.expBaseValue * 1.5, 8)
    case Tank => ZombieStats(cfg.zombieBaseHealth * 3, cfg.zombieSpeed * 0.6, Color(150, 50, 50), cfg.expBaseValue * 3.0, 20)
  }

  /** How the three types compare: fast zombies are quicker but frailer and hit softer,
      tanks are slower, tougher and hit hardest, and the rewards rise 1 : 1.5 : 3. */
  lemma StatsCompare(cfg: Config)
    requires cfg.Valid() && cfg.zombieSpeed > 0.0 && cfg.expBaseValue > 0.0
    ensures var b, f, t := StatsFor(Basic, cfg), StatsFor(Fast, cfg), StatsFor(Tank, cfg);
            && t.speed < b.speed < f.speed
            && f.maxHealth < b.maxHealth < t.maxHealth
            && f.damage < b.damage < t.damage
            && b.expValue < f.expValue < t.expValue
            && t.maxHealth == 3 * b.maxHealth && f.maxHealth * 2 <= b.maxHealth
  {}

  /** What `take_damage` reads and writes. */
  datatype Vitals = Vitals(health: real, alive: bool)

  /** `take_damage(amount)`: the new vitals and whether the call reports a death. */
  function Hurt(v: Vitals, amount: real): (r: (Vitals, bool))
    ensures r.1 <==> v.health - amount <= 0.0
    ensures r.1 ==> r.0 == Vitals(0.0, false)
    ensures !r.1 ==> r.0 == Vitals(v.health - amount, v.alive)
  {
    var h := v.health - amount;
    if h <= 0.0 then (Vitals(0.0, false), true) else (Vitals(h, v.alive), false)
  }

  /** The vitals after `take_damage(a)` for each a in `amounts`, in order. */
  function HurtAll(v: Vitals, amounts: seq<real>): Vitals {
    if |amounts| == 0 then v else Hurt(HurtAll(v, amounts[..|amounts| - 1]), amounts[|amounts| - 1]).0
  }

  /** Over any run of non-negative hits health stays within [0, start], a dead zombie
      stays dead, and a zombie still alive has lost exactly the sum of the hits. */
  lemma {:induction false} HurtAllBounds(v: Vitals, amounts: seq<real>)
    requires v.health >= 0.0
    requires forall i :: 0 <= i < |amounts| ==> amounts[i] >= 0.0
    ensures 0.0 <= HurtAll(v, amounts).health <= v.health
    ensures !v.alive ==> !HurtAll(v, amounts).alive
    ensures HurtAll(v, amounts).alive ==> v.alive && HurtAll(v, amounts).health == v.health - Sum(amounts)
  {
    if |amounts| > 0 {
      HurtAllBounds(v, amounts[..|amounts| - 1]);
    }
  }

  /** There is no liveness guard: once health is 0, every further non-negative hit
      reports a death again. */
  lemma DeadReportsAgain(amount: real)
    requires amount >= 0.0
    ensures Hurt(Vitals(0.0, false), amount) == (Vitals(0.0, false), true)
  {}

  /** Where one `update` leaves a zombie's box: a live zombie away from (tx, ty) steps
      `speed * dt` along the direction to it; otherwise the box stays. */
  function Chased(rect: Rect, alive: bool, speed: real, tx: real, ty: real, dt: real, m: MathLib): Rect {
    var dx, dy := tx - rect.CenterX(), ty - rect.CenterY();
    var d := m.hypot(dx, dy);
    if alive && d > 0.0 then rect.Moved(dx / d * speed * dt, dy / d * speed * dt) else rect
  }

  class Zombie {
    var rect: Rect
    const kind: ZombieKind
    /** The stat fields are variables because a boss overwrites them after construction. */
    var maxHealth: int
    var speed: real
    var color: Color
    var expValue: real
    var damage: int
    var health: real
    var alive: bool
    var vx: real
    var vy: real

    function Stats(): ZombieStats
      reads this
    {
      ZombieStats(maxHealth, speed, color, expValue, damage)
    }

    function Vital(): Vitals
      reads this
    {
      Vitals(health, alive)
    }

    constructor(x: real, y: real, kind: ZombieKind, cfg: Config)
      ensures rect == Centered(x, y, cfg.zombieSize, cfg.zombieSize)
      ensures this.kind == kind && Stats() == StatsFor(kind, cfg)
      ensures health == maxHealth as real && alive
      ensures vx == 0.0 && vy == 0.0
    {
      var st := StatsFor(kind, cfg);
      rect := Centered(x, y, cfg.zombieSize, cfg.zombieSize);
      this.kind := kind;
      maxHealth, speed, color, expValue, damage := st.maxHealth, st.speed, st.color, st.expValue, st.damage;
      health := st.maxHealth as real;
      alive := true;
      vx, vy := 0.0, 0.0;
    }

    method TakeDamage(amount: real) returns (died: bool)
      modifies this`health, this`alive
      ensures (Vital(), died) == Hurt(old(Vital()), amount)
    {
      health := health - amount;
      if health <= 0.0 {
        health := 0.0;
        alive := false;
        return true;
      }
      return false;
    }

    /** `update(dt, player_pos)`: a live zombie away from the player sets its velocity to
        `speed` along the direction to the player and moves by velocity times dt. */
    method Update(dt: real, playerX: real, playerY: real, m: MathLib)
      modifies this`rect, this`vx, this`vy
      ensures rect == Chased(old(rect), old(alive), speed, playerX, playerY, dt, m)
      ensures !old(alive) ==> rect == old(rect) && vx == old(vx) && vy == old(vy)
      ensures var dx, dy := playerX - old(rect).CenterX(), playerY - old(rect).CenterY();
              var d := m.hypot(dx, dy);
              && (old(alive) && d > 0.0 ==>
                    vx == dx / d * speed && vy == dy / d * speed && rect == old(rect).Moved(vx * dt, vy * dt))
              && (d <= 0.0 ==> rect == old(rect) && vx == old(vx) && vy == old(vy))
      ensures m.Valid() && playerX == old(rect).CenterX() && playerY == old(rect).CenterY() ==>
                rect == old(rect) && vx == old(vx) && vy == old(vy)
    {
      if !alive {
        return;
      }
      var dx := playerX - rect.CenterX();
      var dy := playerY - rect.CenterY();
      var distance := m.hypot(dx, dy);
      if m.Valid() {
        HypotPositive(m, dx, dy);
      }
      if distance > 0.0 {
        vx := dx / distance * speed;
        vy := dy / distance * speed;
        assert rect.Moved(vx * dt, vy * dt) == Chased(rect, true, speed, playerX, playerY, dt, m);
        rect := rect.Moved(vx * dt, vy * dt);
      }
    }
  }
}
