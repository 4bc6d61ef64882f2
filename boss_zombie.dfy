/** The boss (`entities/boss_zombie.py`): a basic zombie with its stats, size and colour
    overwritten, plus a minion countdown. The inheritance is modelled by composition: the
    boss holds the zombie it extends as `body`. */
module Bosses {
  import opened Numbers
  import opened Geometry
  import opened Settings
  import opened Zombies

  /** The stats the boss overwrites. */
  const BossMaxHealth: int := 2000
  const BossDamage: int := 30
  const BossExpValue: real := 500.0
  const BossSize: real := 64.0
  const BossColor: Color := Color(200, 50, 200)
  const MinionCooldown: real := 5.0

  /** `should_spawn_minion` on the countdown: fire and restart at the cooldown. */
  function MinionCheck(timer: real, cooldown: real): (r: (real, bool))
    ensures r.1 <==> timer >= cooldown
    ensures r.1 ==> r.0 == 0.0
    ensures !r.1 ==> r.0 == timer
  {
    if timer >= cooldown then (0.0, true) else (timer, false)
  }

  /** One boss update followed by the minion check, as a caller would run them frame by
      frame: the countdown and the number of minions requested over a run of frames. */
  function MinionsOver(timer: real, dts: seq<real>, cooldown: real): (real, nat) {
    if |dts| == 0 then (timer, 0)
    else
      var (t, k) := MinionsOver(timer, dts[..|dts| - 1], cooldown);
      var (t', fire) := MinionCheck(t + dts[|dts| - 1], cooldown);
      (t', k + if fire then 1 else 0)
  }

  /** Over any run of frames, minion requests are paid for in elapsed time: the time
      fed in equals the time left on the countdown plus at least one cooldown per request. */
  lemma {:induction false} MinionsCostTime(timer: real, dts: seq<real>, cooldown: real)
    ensures var (t, k) := MinionsOver(timer, dts, cooldown);
            timer + Sum(dts) >= t + k as real * cooldown
  {
    if |dts| > 0 {
      MinionsCostTime(timer, dts[..|dts| - 1], cooldown);
      var (t, k) := MinionsOver(timer, dts[..|dts| - 1], cooldown);
      assert (k + 1) as real * cooldown == k as real * cooldown + cooldown;
    }
  }

  class BossZombie {
    const body: Zombie
    const size: real
    var spawnTimer: real
    const spawnCooldown: real
    var pulse: real

    constructor(x: real, y: real, cfg: Config)
      ensures fresh(body) && body.kind == Basic
      ensures body.maxHealth == BossMaxHealth && body.health == BossMaxHealth as real && body.alive
      ensures body.speed == cfg.zombieSpeed * 0.8 && body.damage == BossDamage
      ensures body.expValue == BossExpValue && body.color == BossColor
      ensures size == BossSize && body.rect == Centered(x, y, BossSize, BossSize)
      ensures spawnTimer == 0.0 && spawnCooldown == MinionCooldown && pulse == 0.0
    {
      var z := new Zombie(x, y, Basic, cfg);
      z.maxHealth := BossMaxHealth;
      z.health := BossMaxHealth as real;
      z.speed := cfg.zombieSpeed * 0.8;
      z.damage := BossDamage;
      z.expValue := BossExpValue;
      z.rect := Centered(x, y, BossSize, BossSize);
      z.color := BossColor;
      body := z;
      size := BossSize;
      spawnTimer := 0.0;
      spawnCooldown := MinionCooldown;
      pulse := 0.0;
    }

    /** `update(dt, player_pos)`: the zombie's chase step, then the pulse and the minion
        countdown advance whether or not the boss is alive. */
    method Update(dt: real, playerX: real, playerY: real, m: MathLib)
      modifies this`pulse, this`spawnTimer, body`rect, body`vx, body`vy
      ensures pulse == old(pulse) + dt * 3.0 && spawnTimer == old(spawnTimer) + dt
      ensures !old(body.alive) ==> body.rect == old(body.rect)
    {
      body.Update(dt, playerX, playerY, m);
      pulse := pulse + dt * 3.0;
      spawnTimer := spawnTimer + dt;
    }

    method ShouldSpawnMinion() returns (spawn: bool)
      modifies this`spawnTimer
      ensures (spawnTimer, spawn) == MinionCheck(old(spawnTimer), spawnCooldown)
    {
      if spawnTimer >= spawnCooldown {
        spawnTimer := 0.0;
        return true;
      }
      return false;
    }
  }
}
