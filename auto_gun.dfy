/** The auto gun (`weapons/auto_gun.py`): on a fixed cooldown it fires at the nearest live
    zombie, one aimed bullet or a 15-degree fan of bullets, and each level improves one
    of fire rate, bullet count or damage. */
module Guns {
  import opened Numbers
  import opened Geometry
  import opened Settings
  import opened Zombies
  import opened Bullets
  import opened Players
  import opened Weapons

  /** The stats `apply_upgrade` rewrites. */
  datatype GunStats = GunStats(fireRate: real, damage: real, bulletCount: int)

  /** A new gun: 3 shots per second, BULLET_DAMAGE, one bullet. */
  function FreshGun(baseDamage: real): GunStats {
    GunStats(3.0, baseDamage, 1)
  }

  /** `apply_upgrade` at the given (already raised) level. */
  function GunStep(level: int, s: GunStats, baseDamage: real): GunStats {
    if level == 2 then s.(fireRate := 4.0)
    else if level == 3 then s.(bulletCount := 2)
    else if level == 4 then s.(fireRate := 5.0)
    else if level == 5 then s.(bulletCount := 3)
    else if level == 6 then s.(damage := baseDamage * 1.5)
    else if level >= 7 then s.(fireRate := 6.0)
    else s
  }

  /** A gun's stats after upgrades from level 1 up to `level`, one at a time. */
  function UpgradedGun(level: nat, baseDamage: real): GunStats
    decreases level
  {
    if level <= 1 then FreshGun(baseDamage) else GunStep(level, UpgradedGun(level - 1, baseDamage), baseDamage)
  }

  /** The gun at each level, stated directly: fire rate 3, 4 from level 2, 5 from 4 and 6
      from 7; one bullet, two from level 3 and three from 5; damage x1.5 from level 6. */
  function GunAtLevel(level: int, baseDamage: real): GunStats {
    GunStats(
      if level >= 7 then 6.0 else if level >= 4 then 5.0 else if level >= 2 then 4.0 else 3.0,
      if level >= 6 then baseDamage * 1.5 else baseDamage,
      if level >= 5 then 3 else if level >= 3 then 2 else 1)
  }

  /** Upgrading one level at a time yields exactly the table. */
  lemma {:induction false} UpgradesFollowTable(level: nat, baseDamage: real)
    requires level >= 1
    ensures UpgradedGun(level, baseDamage) == GunAtLevel(level, baseDamage)
  {
    if level > 1 {
      UpgradesFollowTable(level - 1, baseDamage);
    }
  }

  /** Along the table, the fire rate never drops and the bullet count stays within 1..3. */
  lemma TableMonotone(l1: int, l2: int, baseDamage: real)
    requires l1 <= l2
    ensures GunAtLevel(l1, baseDamage).fireRate <= GunAtLevel(l2, baseDamage).fireRate
    ensures GunAtLevel(l1, baseDamage).bulletCount <= GunAtLevel(l2, baseDamage).bulletCount
    ensures 1 <= GunAtLevel(l2, baseDamage).bulletCount <= 3
    ensures 3.0 <= GunAtLevel(l2, baseDamage).fireRate <= 6.0
  {}

  /** Squared distance between the centres, target minus owner as the search computes it. */
  function Dist2(z: Zombie, ox: real, oy: real): real
    reads z
  {
    Norm2(z.rect.CenterX() - ox, z.rect.CenterY() - oy)
  }

  /** Target k is the live target nearest to (ox, oy), and the first such in list order. */
  ghost predicate IsNearest(targets: seq<Zombie>, ox: real, oy: real, k: int)
    reads set z | z in targets
  {
    && 0 <= k < |targets| && targets[k].alive
    && (forall j :: 0 <= j < |targets| && targets[j].alive ==> Dist2(targets[k], ox, oy) <= Dist2(targets[j], ox, oy))
    && (forall j :: 0 <= j < k && targets[j].alive ==> Dist2(targets[k], ox, oy) < Dist2(targets[j], ox, oy))
  }

  /** The search loop of `shoot_at_nearest`: skip dead targets and keep the first one
      with the smallest squared distance; `None` when every target is dead. */
  method NearestLiveTarget(targets: seq<Zombie>, ox: real, oy: real) returns (nearest: Option<nat>)
    ensures nearest.None? <==> forall i :: 0 <= i < |targets| ==> !targets[i].alive
    ensures nearest.Some? ==> IsNearest(targets, ox, oy, nearest.value)
  {
    nearest := None;
    var minDist := 0.0;
    var i := 0;
    while i < |targets|
      invariant 0 <= i <= |targets|
      invariant nearest.None? <==> forall j :: 0 <= j < i ==> !targets[j].alive
      invariant nearest.Some? ==> nearest.value < i && minDist == Dist2(targets[nearest.value], ox, oy)
      invariant nearest.Some? ==> IsNearest(targets[..i], ox, oy, nearest.value)
    {
      var t := targets[i];
      if t.alive {
        var d := Dist2(t, ox, oy);
        if nearest.None? || d < minDist {
          minDist := d;
          nearest := Some(i);
        }
      }
      i := i + 1;
    }
    assert targets[..i] == targets;
  }

  /** The fan of a multi-bullet shot: `count` directions 15 degrees wide in total, evenly
      stepped from the left edge. */
  function SpreadAngle(i: int, count: int, toTarget: real, pi: real): real {
    var spread := Radians(15.0, pi);
    var step := spread / (if count - 1 > 1 then count - 1 else 1) as real;
    toTarget - spread / 2.0 + i as real * step
  }

  /** The fan is centred on the target: its first and last directions lie half the spread
      to either side. */
  lemma FanCentred(count: int, toTarget: real, pi: real)
    requires count >= 2
    ensures SpreadAngle(0, count, toTarget, pi) == toTarget - Radians(15.0, pi) / 2.0
    ensures SpreadAngle(count - 1, count, toTarget, pi) == toTarget + Radians(15.0, pi) / 2.0
  {
    var spread := Radians(15.0, pi);
    var c := (count - 1) as real;
    assert c > 0.0;
    assert (if count - 1 > 1 then count - 1 else 1) as real == c;
    assert c * (spread / c) == spread;
  }

  /** The point 500 pixels from (ox, oy) in the given direction. */
  function FanPoint(ox: real, oy: real, angle: real, m: MathLib): (real, real) {
    (ox + m.cos(angle) * 500.0, oy + m.sin(angle) * 500.0)
  }

  /** The fan branch of `shoot_at_nearest`: `count` new bullets from (ox, oy), the i-th
      aimed at the point 500 pixels away along its spread angle around `toTarget`. */
  method Fan(ox: real, oy: real, toTarget: real, count: int, damage: real, speed: real, color: Color, m: MathLib)
    returns (bullets: seq<Bullet>)
    ensures |bullets| == if count < 0 then 0 else count
    ensures forall j :: 0 <= j < |bullets| ==>
              var p := FanPoint(ox, oy, SpreadAngle(j, count, toTarget, m.pi), m);
              && fresh(bullets[j]) && bullets[j].alive && bullets[j].pierceCount == 0
              && bullets[j].x == ox && bullets[j].y == oy && bullets[j].damage == damage
              && Aimed(bullets[j], ox, oy, p.0, p.1, speed, m)
    ensures Distinct(bullets)
  {
    bullets := [];
    var i := 0;
    while i < count
      invariant 0 <= i && (count >= 0 ==> i <= count) && (count < 0 ==> i == 0) && |bullets| == i
      invariant forall j :: 0 <= j < i ==>
                  var p := FanPoint(ox, oy, SpreadAngle(j, count, toTarget, m.pi), m);
                  && fresh(bullets[j]) && bullets[j].alive && bullets[j].pierceCount == 0
                  && bullets[j].x == ox && bullets[j].y == oy && bullets[j].damage == damage
                  && Aimed(bullets[j], ox, oy, p.0, p.1, speed, m)
      invariant Distinct(bullets)
    {
      var p := FanPoint(ox, oy, SpreadAngle(i, count, toTarget, m.pi), m);
      var b := new Bullet(ox, oy, p.0, p.1, damage, speed, color, m);
      bullets := bullets + [b];
      i := i + 1;
    }
  }

  class AutoGun {
    const base: Weapon
    const baseDamage: real
    const bulletSpeed: real
    const bulletColor: Color
    var fireRate: real
    var damage: real
    var bulletCount: int
    var pierce: int
    var shootTimer: real
    var shootCooldown: real

    function Stats(): GunStats
      reads this
    {
      GunStats(fireRate, damage, bulletCount)
    }

    /** The stats are the table's for the current level, and the cooldown is one over the
        fire rate. */
    ghost predicate Valid()
      reads this, base
    {
      base.level >= 1 && Stats() == GunAtLevel(base.level, baseDamage) && shootCooldown == 1.0 / fireRate
    }

    constructor(owner: Player, cfg: Config, bulletColor: Color)
      ensures fresh(base) && base.owner == owner && base.level == 1 && base.enabled
      ensures baseDamage == cfg.bulletDamage && bulletSpeed == cfg.bulletSpeed && this.bulletColor == bulletColor
      ensures Stats() == FreshGun(cfg.bulletDamage) && pierce == 0
      ensures shootTimer == 0.0 && shootCooldown * 3.0 == 1.0
      ensures Valid()
    {
      base := new Weapon(owner);
      baseDamage := cfg.bulletDamage;
      bulletSpeed := cfg.bulletSpeed;
      this.bulletColor := bulletColor;
      fireRate := 3.0;
      damage := cfg.bulletDamage;
      bulletCount := 1;
      pierce := 0;
      shootTimer := 0.0;
      shootCooldown := 1.0 / 3.0;
    }

    /** `update(dt, targets)`: the timer always advances; at the cooldown, and only when
        there are targets, the gun shoots and the timer restarts even if nothing was hit. */
    method Update(dt: real, targets: seq<Zombie>, m: MathLib) returns (bullets: seq<Bullet>)
      requires Valid()
      modifies this`shootTimer
      ensures var fired := old(shootTimer) + dt >= shootCooldown && |targets| > 0;
              && shootTimer == (if fired then 0.0 else old(shootTimer) + dt)
              && (!fired ==> bullets == [])
              && (fired && (forall i :: 0 <= i < |targets| ==> !targets[i].alive) ==> bullets == [])
              && (fired && (exists i :: 0 <= i < |targets| && targets[i].alive) ==> |bullets| == bulletCount)
      ensures forall i :: 0 <= i < |bullets| ==> fresh(bullets[i]) && bullets[i].alive && bullets[i].pierceCount == 0
      ensures Distinct(bullets)
    {
      shootTimer := shootTimer + dt;
      if shootTimer >= shootCooldown && |targets| > 0 {
        ghost var target;
        bullets, target := ShootAtNearest(targets, m);
        shootTimer := 0.0;
      } else {
        bullets := [];
      }
    }

    /** `shoot_at_nearest(targets)`: nothing when every target is dead; otherwise
        `bullet_count` new bullets from the owner's centre carrying the gun's damage, one
        aimed at the nearest target's centre or a fan around it. */
    method ShootAtNearest(targets: seq<Zombie>, m: MathLib) returns (bullets: seq<Bullet>, ghost target: Option<nat>)
      requires Valid()
      ensures var ox, oy := base.owner.rect.CenterX(), base.owner.rect.CenterY();
              && (target.None? <==> forall i :: 0 <= i < |targets| ==> !targets[i].alive)
              && (target.Some? ==> IsNearest(targets, ox, oy, target.value))
              && (target.None? ==> bullets == [])
              && (target.Some? ==> |bullets| == bulletCount)
              && (forall i :: 0 <= i < |bullets| ==>
                    && bullets[i].x == ox && bullets[i].y == oy && bullets[i].damage == damage
                    && bullets[i].alive && bullets[i].pierceCount == 0)
              && (target.Some? && bulletCount == 1 ==>
                    var t := targets[target.value];
                    Aimed(bullets[0], ox, oy, t.rect.CenterX(), t.rect.CenterY(), bulletSpeed, m))
              && (target.Some? && bulletCount != 1 ==>
                    var t := targets[target.value];
                    var toTarget := m.atan2(t.rect.CenterY() - oy, t.rect.CenterX() - ox);
                    forall i :: 0 <= i < |bullets| ==>
                      var p := FanPoint(ox, oy, SpreadAngle(i, bulletCount, toTarget, m.pi), m);
                      Aimed(bullets[i], ox, oy, p.0, p.1, bulletSpeed, m))
      ensures forall i :: 0 <= i < |bullets| ==> fresh(bullets[i])
      ensures Distinct(bullets)
    {
      var ox, oy := base.owner.rect.CenterX(), base.owner.rect.CenterY();
      var nearest := NearestLiveTarget(targets, ox, oy);
      target := nearest;
      if nearest.None? {
        return [], target;
      }
      var t := targets[nearest.value];
      var tx, ty := t.rect.CenterX(), t.rect.CenterY();
      if bulletCount == 1 {
        var b := new Bullet(ox, oy, tx, ty, damage, bulletSpeed, bulletColor, m);
        bullets := [b];
      } else {
        var toTarget := m.atan2(ty - oy, tx - ox);
        bullets := Fan(ox, oy, toTarget, bulletCount, damage, bulletSpeed, bulletColor, m);
      }
    }

    /** `upgrade()`: raise the shared level, then apply that level's step. */
    method Upgrade()
      requires Valid()
      modifies base`level, this`fireRate, this`damage, this`bulletCount, this`shootCooldown
      ensures Valid() && base.level == old(base.level) + 1
      ensures Stats() == GunStep(base.level, old(Stats()), baseDamage)
    {
      base.level := base.level + 1;
      ApplyUpgrade();
    }

    /** `apply_upgrade()`: the level's step of the table, then the cooldown follows the
        fire rate. */
    method ApplyUpgrade()
      requires base.level >= 2 && Stats() == GunAtLevel(base.level - 1, baseDamage)
      modifies this`fireRate, this`damage, this`bulletCount, this`shootCooldown
      ensures Valid()
      ensures Stats() == GunStep(base.level, old(Stats()), baseDamage)
    {
      var level := base.level;
      if level == 2 {
        fireRate := 4.0;
      } else if level == 3 {
        bulletCount := 2;
      } else if level == 4 {
        fireRate := 5.0;
      } else if level == 5 {
        bulletCount := 3;
      } else if level == 6 {
        damage := baseDamage * 1.5;
      } else if level >= 7 {
        fireRate := 6.0;
      }
      shootCooldown := 1.0 / fireRate;
    }
  }
}
