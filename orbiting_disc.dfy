/** The orbiting disc (`weapons/orbiting_disc.py`): discs evenly spaced on a circle around
    the owner, turning at a fixed rate, that hit each touching live zombie at most once per
    frame and then leave it alone for half a second. Positions use the abstract cos/sin. */
module Discs {
  import opened Numbers
  import opened Geometry
  import opened Settings
  import opened Zombies
  import opened Players
  import opened Weapons
  import opened Bullets

  /** Seconds between two hits on the same zombie. */
  const HitDelay: real := 0.5

  /** `(angle + rotation_speed * dt) % 360` for Python floats: the result lies in [0, 360)
      and differs from the sum by a whole number of turns. */
  function WrapAngle(a: real): (r: real)
    ensures 0.0 <= r < 360.0
    ensures r == a - 360.0 * (a / 360.0).Floor as real
  {
    a - 360.0 * (a / 360.0).Floor as real
  }

  /** The disc angle after turning at `speed` degrees per second for dt seconds. */
  function Turned(angle: real, speed: real, dt: real): real {
    WrapAngle(angle + speed * dt)
  }

  /** An angle already in [0, 360) is its own wrap, so wrapping twice changes nothing. */
  lemma WrapIdempotent(a: real)
    ensures WrapAngle(WrapAngle(a)) == WrapAngle(a)
  {
    assert (WrapAngle(a) / 360.0).Floor == 0;
  }

  /** The stats `apply_upgrade` rewrites. */
  datatype DiscStats = DiscStats(discCount: int, rotationSpeed: real, radius: real, damage: real, size: int)

  /** A new disc weapon: one disc of size 12 at DISC_RADIUS, DISC_ROTATION_SPEED and
      DISC_DAMAGE. */
  function FreshDisc(cfg: Config): DiscStats {
    DiscStats(1, cfg.discRotationSpeed, cfg.discRadius, cfg.discDamage, 12)
  }

  /** `apply_upgrade` at the given (already raised) level. */
  function DiscStep(level: int, s: DiscStats, cfg: Config): DiscStats {
    if level == 2 then s.(discCount := 2)
    else if level == 3 then s.(rotationSpeed := cfg.discRotationSpeed * 1.3)
    else if level == 4 then s.(discCount := 3)
    else if level == 5 then s.(radius := cfg.discRadius * 1.2)
    else if level == 6 then s.(discCount := 4)
    else if level == 7 then s.(damage := cfg.discDamage * 1.5)
    else if level >= 8 then s.(size := 16)
    else s
  }

  /** The disc weapon's stats after upgrades from level 1 up to `level`, one at a time. */
  function UpgradedDisc(level: nat, cfg: Config): DiscStats
    decreases level
  {
    if level <= 1 then FreshDisc(cfg) else DiscStep(level, UpgradedDisc(level - 1, cfg), cfg)
  }

  /** The disc weapon at each level, stated directly: one disc more at levels 2, 4 and
      6; rotation x1.3 from 3; orbit x1.2 from 5; damage x1.5 from 7; size 16 from 8. */
  function DiscAtLevel(level: int, cfg: Config): DiscStats {
    DiscStats(
      if level >= 6 then 4 else if level >= 4 then 3 else if level >= 2 then 2 else 1,
      if level >= 3 then cfg.discRotationSpeed * 1.3 else cfg.discRotationSpeed,
      if level >= 5 then cfg.discRadius * 1.2 else cfg.discRadius,
      if level >= 7 then cfg.discDamage * 1.5 else cfg.discDamage,
      if level >= 8 then 16 else 12)
  }

  /** Upgrading one level at a time yields exactly the table. */
  lemma {:induction false} UpgradesFollowTable(level: nat, cfg: Config)
    requires level >= 1
    ensures UpgradedDisc(level, cfg) == DiscAtLevel(level, cfg)
  {
    if level > 1 {
      UpgradesFollowTable(level - 1, cfg);
    }
  }

  /** Along the table the disc count never drops and stays within 1..4. */
  lemma TableMonotone(l1: int, l2: int, cfg: Config)
    requires l1 <= l2
    ensures DiscAtLevel(l1, cfg).discCount <= DiscAtLevel(l2, cfg).discCount
    ensures 1 <= DiscAtLevel(l2, cfg).discCount <= 4
  {}

  /** Disc i of `count`, `360 / count` degrees after the previous one. */
  function DiscPosition(i: int, count: int, angle: real, radius: real, cx: real, cy: real, m: MathLib): (real, real)
    requires count != 0
  {
    var a := Radians(angle + i as real * (360.0 / count as real), m.pi);
    (cx + m.cos(a) * radius, cy + m.sin(a) * radius)
  }

  /** All `count` disc positions around the centre. */
  function Ring(count: int, angle: real, radius: real, cx: real, cy: real, m: MathLib): (positions: seq<(real, real)>)
    requires count >= 1
    ensures |positions| == count
    ensures forall i :: 0 <= i < count ==> positions[i] == DiscPosition(i, count, angle, radius, cx, cy, m)
  {
    seq(count, i requires 0 <= i < count => DiscPosition(i, count, angle, radius, cx, cy, m))
  }

  /** Some disc touches the box, by the circle test with the disc size as radius. */
  predicate Touches(positions: seq<(real, real)>, size: int, box: Rect, m: MathLib) {
    exists j :: 0 <= j < |positions| && CircleHits(m, positions[j].0, positions[j].1, size as real, box)
  }

  /** What happens to one target's cooldown entry and health in `check_collisions`. */
  datatype Contact = Contact(hit: bool, entry: Option<real>)

  /** One target's visit: a dead target is skipped; an entry present is first counted down
      by dt and, while still positive, protects the target; otherwise a touching disc hits
      and restarts the entry at the hit delay. */
  function Visit(entry: Option<real>, alive: bool, touching: bool, dt: real): (c: Contact)
    ensures !alive ==> c == Contact(false, entry)
    ensures c.hit <==> alive && touching && (entry.Some? ==> entry.value - dt <= 0.0)
    ensures c.hit ==> c.entry == Some(HitDelay)
    ensures alive && !c.hit ==> c.entry == if entry.Some? then Some(entry.value - dt) else None
  {
    if !alive then Contact(false, entry)
    else
      var counted := if entry.Some? then Some(entry.value - dt) else None;
      if counted.Some? && counted.value > 0.0 then Contact(false, counted)
      else if touching then Contact(true, Some(HitDelay))
      else Contact(false, counted)
  }

  /** A target's entry and vitals before and after its visit agree with `Visit`: a hit
      deals `damage`, anything else leaves the vitals alone. */
  predicate Outcome(before: Option<real>, oldVital: Vitals, after: Option<real>, newVital: Vitals,
                    touching: bool, dt: real, damage: real)
  {
    var visit := Visit(before, oldVital.alive, touching, dt);
    && after == visit.entry
    && (visit.hit ==> newVital == Hurt(oldVital, damage).0)
    && (!visit.hit ==> newVital == oldVital)
  }

  /** One frame as one target sees it: alive or not, touched by a disc or not, and the
      frame's dt. */
  datatype Pass = Pass(alive: bool, touching: bool, dt: real)

  /** An entry as the clean-up pass leaves it. */
  function Kept(entry: Option<real>): (r: Option<real>)
    ensures r.Some? <==> entry.Some? && entry.value > 0.0
    ensures r.Some? ==> r == entry
  {
    if entry.Some? && entry.value > 0.0 then entry else None
  }

  /** The seconds of protection an entry still gives. */
  function Owed(entry: Option<real>): real {
    if entry.Some? then entry.value else 0.0
  }

  /** The frame times of a run of passes. */
  function Dts(passes: seq<Pass>): (r: seq<real>)
    ensures |r| == |passes| && forall i :: 0 <= i < |passes| ==> r[i] == passes[i].dt
  {
    seq(|passes|, i requires 0 <= i < |passes| => passes[i].dt)
  }

  /** One target's entry after a run of frames, and how often the discs hit it. */
  function VisitsOver(entry: Option<real>, passes: seq<Pass>): (Option<real>, nat) {
    if |passes| == 0 then (entry, 0)
    else
      var (e, hits) := VisitsOver(entry, passes[..|passes| - 1]);
      var p := passes[|passes| - 1];
      var visit := Visit(e, p.alive, p.touching, p.dt);
      (Kept(visit.entry), hits + if visit.hit then 1 else 0)
  }

  /** An entry the weapon can hold: none, or a positive time no longer than the delay. */
  predicate Fresh(entry: Option<real>) {
    entry.Some? ==> 0.0 < entry.value <= HitDelay
  }

  /** The hit delay is kept: over any run of frames with non-negative dt, the discs hit
      one target at most once more than the number of whole half-seconds that passed.
      (The potential `hits * delay - owed` grows by at most dt per frame.) */
  lemma {:induction false} HitsAreSpaced(entry: Option<real>, passes: seq<Pass>)
    requires Fresh(entry)
    requires forall i :: 0 <= i < |passes| ==> passes[i].dt >= 0.0
    ensures var (e, hits) := VisitsOver(entry, passes);
            && Fresh(e)
            && hits as real * HitDelay - Owed(e) + Owed(entry) <= Sum(Dts(passes))
            && (hits as real - 1.0) * HitDelay <= Sum(Dts(passes))
  {
    if |passes| > 0 {
      var init := passes[..|passes| - 1];
      HitsAreSpaced(entry, init);
      assert Dts(passes)[..|passes| - 1] == Dts(init);
      var (e, hits) := VisitsOver(entry, init);
      var p := passes[|passes| - 1];
      var visit := Visit(e, p.alive, p.touching, p.dt);
      assert (hits + 1) as real * HitDelay == hits as real * HitDelay + HitDelay;
    } else {
      assert Dts(passes) == [];
    }
  }

  /** The clean-up pass: entries that are no longer positive are dropped. */
  function Prune(cooldowns: map<Zombie, real>): (r: map<Zombie, real>)
    ensures forall z :: z in r ==> z in cooldowns && r[z] == cooldowns[z] > 0.0
    ensures forall z :: z in cooldowns && cooldowns[z] > 0.0 ==> z in r
  {
    map z | z in cooldowns && cooldowns[z] > 0.0 :: cooldowns[z]
  }

  /** The entry a map holds for z. */
  function Entry(cooldowns: map<Zombie, real>, z: Zombie): Option<real> {
    if z in cooldowns then Some(cooldowns[z]) else None
  }

  /** After the clean-up pass a zombie's entry is the positive entry it had, or none. */
  lemma PruneEntry(cooldowns: map<Zombie, real>, z: Zombie)
    ensures Entry(Prune(cooldowns), z) == if z in cooldowns && cooldowns[z] > 0.0 then Entry(cooldowns, z) else None
  {}

  /** What `check_collisions` makes of the map before the clean-up pass. */
  function Store(cooldowns: map<Zombie, real>, z: Zombie, entry: Option<real>): (r: map<Zombie, real>)
    ensures Entry(r, z) == entry
    ensures r - {z} == cooldowns - {z}
  {
    if entry.Some? then cooldowns[z := entry.value] else cooldowns - {z}
  }

  /** Every entry of the map is positive. */
  predicate AllPositive(cooldowns: map<Zombie, real>) {
    forall z :: z in cooldowns ==> cooldowns[z] > 0.0
  }

  class OrbitingDisc {
    const base: Weapon
    const cfg: Config
    var discCount: int
    var radius: real
    var rotationSpeed: real
    var damage: real
    var size: int
    const color: Color
    var angle: real
    var hitCooldown: map<Zombie, real>
    const hitDelay: real

    function Stats(): DiscStats
      reads this
    {
      DiscStats(discCount, rotationSpeed, radius, damage, size)
    }

    /** The stats are the table's for the current level, and every cooldown entry is
        positive. */
    ghost predicate Valid()
      reads this, base
    {
      base.level >= 1 && Stats() == DiscAtLevel(base.level, cfg) && hitDelay == HitDelay && AllPositive(hitCooldown)
    }

    constructor(owner: Player, cfg: Config)
      ensures fresh(base) && base.owner == owner && base.level == 1 && base.enabled
      ensures this.cfg == cfg && Stats() == FreshDisc(cfg) && color == Color(100, 200, 255)
      ensures angle == 0.0 && hitCooldown == map[] && hitDelay == HitDelay
      ensures Valid()
    {
      base := new Weapon(owner);
      this.cfg := cfg;
      discCount := 1;
      radius := cfg.discRadius;
      rotationSpeed := cfg.discRotationSpeed;
      damage := cfg.discDamage;
      size := 12;
      color := Color(100, 200, 255);
      angle := 0.0;
      hitCooldown := map[];
      hitDelay := HitDelay;
    }

    /** `update(dt, targets)`: turn the discs, then check collisions; never any
        projectiles. */
    method Update(dt: real, targets: seq<Zombie>, m: MathLib) returns (projectiles: seq<Bullet>)
      requires Valid() && Distinct(targets)
      modifies this`angle, this`hitCooldown, targets`health, targets`alive
      ensures Valid() && projectiles == []
      ensures angle == Turned(old(angle), old(rotationSpeed), dt)
      ensures forall i :: 0 <= i < |targets| ==>
                var z := targets[i];
                var visit := Visit(Entry(old(hitCooldown), z), old(z.alive),
                                   Touches(Ring(discCount, angle, radius, base.owner.rect.CenterX(), base.owner.rect.CenterY(), m), size, z.rect, m), dt);
                && Entry(hitCooldown, z) == Kept(visit.entry)
                && (visit.hit ==> z.Vital() == Hurt(old(z.Vital()), damage).0)
                && (!visit.hit ==> z.Vital() == old(z.Vital()))
      ensures forall z :: z !in targets ==> Entry(hitCooldown, z) == Entry(old(hitCooldown), z)
    {
      angle := Turned(angle, rotationSpeed, dt);
      CheckCollisions(targets, dt, m);
      projectiles := [];
    }

    /** `get_disc_positions()`: exactly `disc_count` positions, evenly spread. */
    method GetDiscPositions(m: MathLib) returns (positions: seq<(real, real)>)
      requires Valid()
      ensures |positions| == discCount
      ensures forall i :: 0 <= i < |positions| ==>
                positions[i] == DiscPosition(i, discCount, angle, radius,
                                             base.owner.rect.CenterX(), base.owner.rect.CenterY(), m)
    {
      var cx, cy := base.owner.rect.CenterX(), base.owner.rect.CenterY();
      positions := [];
      var i := 0;
      while i < discCount
        invariant 0 <= i <= discCount && |positions| == i
        invariant forall j :: 0 <= j < i ==> positions[j] == DiscPosition(j, discCount, angle, radius, cx, cy, m)
      {
        positions := positions + [DiscPosition(i, discCount, angle, radius, cx, cy, m)];
        i := i + 1;
      }
    }

    /** The inner loop over the discs: does any of them hit the box? */
    method AnyDiscHits(positions: seq<(real, real)>, box: Rect, m: MathLib) returns (hit: bool)
      ensures hit == Touches(positions, size, box, m)
    {
      var j := 0;
      while j < |positions|
        invariant 0 <= j <= |positions|
        invariant forall k :: 0 <= k < j ==> !CircleHits(m, positions[k].0, positions[k].1, size as real, box)
      {
        var (px, py) := positions[j];
        var cx := Clamp(px, box.left, box.Right());
        var cy := Clamp(py, box.top, box.Bottom());
        if m.hypot(px - cx, py - cy) < size as real {
          return true;
        }
        j := j + 1;
      }
      return false;
    }

    /** One pass of the loop in `check_collisions`: the target's entry is counted down
        and, when it no longer protects a live target that a disc touches, the target takes
        `damage` and the entry restarts. No other entry changes. */
    method VisitTarget(z: Zombie, cooldowns: map<Zombie, real>, positions: seq<(real, real)>, dt: real, m: MathLib)
      returns (next: map<Zombie, real>)
      modifies z`health, z`alive
      ensures Outcome(Entry(cooldowns, z), old(z.Vital()), Entry(next, z), z.Vital(),
                      Touches(positions, size, z.rect, m), dt, damage)
      ensures next - {z} == cooldowns - {z}
    {
      next := cooldowns;
      if z.alive {
        var entry := Entry(cooldowns, z);
        var counted := if entry.Some? then Some(entry.value - dt) else None;
        next := Store(next, z, counted);
        if !(counted.Some? && counted.value > 0.0) {
          var touching := AnyDiscHits(positions, z.rect, m);
          if touching {
            var _ := z.TakeDamage(damage);
            next := Store(next, z, Some(HitDelay));
          }
        }
      }
    }

    /** `check_collisions(targets, dt)` over a list without repeats: each target is visited
        once as `Visit` says; a hit deals `damage` once; then non-positive entries are
        dropped. Entries of zombies not in the list are kept as they were. */
    method CheckCollisions(targets: seq<Zombie>, dt: real, m: MathLib)
      requires Valid() && Distinct(targets)
      modifies this`hitCooldown, targets`health, targets`alive
      ensures Valid()
      ensures forall i :: 0 <= i < |targets| ==>
                var z := targets[i];
                var visit := Visit(Entry(old(hitCooldown), z), old(z.alive),
                                   Touches(Ring(discCount, angle, radius, base.owner.rect.CenterX(), base.owner.rect.CenterY(), m), size, z.rect, m), dt);
                && Entry(hitCooldown, z) == Kept(visit.entry)
                && (visit.hit ==> z.Vital() == Hurt(old(z.Vital()), damage).0)
                && (!visit.hit ==> z.Vital() == old(z.Vital()))
      ensures forall z :: z !in targets ==> Entry(hitCooldown, z) == Entry(old(hitCooldown), z)
    {
      var positions := GetDiscPositions(m);
      var cooldowns: map<Zombie, real> := hitCooldown;
      var i := 0;
      while i < |targets|
        invariant 0 <= i <= |targets|
        invariant forall k :: i <= k < |targets| ==> targets[k].Vital() == old(targets[k].Vital())
        invariant forall k :: 0 <= k < i ==>
                    Outcome(Entry(old(hitCooldown), targets[k]), old(targets[k].Vital()), Entry(cooldowns, targets[k]),
                            targets[k].Vital(), Touches(positions, size, targets[k].rect, m), dt, damage)
        invariant forall z :: z !in targets[..i] ==> Entry(cooldowns, z) == Entry(old(hitCooldown), z)
      {
        var z := targets[i];
        assert z !in targets[..i];
        assert forall k :: 0 <= k < |targets| && k != i ==> targets[k] != z;
        var next := VisitTarget(z, cooldowns, positions, dt, m);
        assert forall w :: w != z ==> Entry(next, w) == Entry(cooldowns, w) by {
          forall w | w != z ensures Entry(next, w) == Entry(cooldowns, w) {
            assert w in next <==> w in next - {z};
            assert w in cooldowns <==> w in cooldowns - {z};
          }
        }
        cooldowns := next;
        assert targets[..i + 1] == targets[..i] + [z];
        i := i + 1;
      }
      assert targets[..i] == targets;
      hitCooldown := Prune(cooldowns);
      assert positions == Ring(discCount, angle, radius, base.owner.rect.CenterX(), base.owner.rect.CenterY(), m);
      forall z: Zombie
        ensures Entry(hitCooldown, z) == if z in cooldowns && cooldowns[z] > 0.0 then Entry(cooldowns, z) else None
      {
        PruneEntry(cooldowns, z);
      }
    }

    /** `upgrade()`: raise the shared level, then apply that level's step. */
    method Upgrade()
      requires Valid()
      modifies base`level, this`discCount, this`rotationSpeed, this`radius, this`damage, this`size
      ensures Valid() && base.level == old(base.level) + 1
      ensures Stats() == DiscStep(base.level, old(Stats()), cfg)
    {
      base.level := base.level + 1;
      ApplyUpgrade();
    }

    method ApplyUpgrade()
      requires base.level >= 2 && Stats() == DiscAtLevel(base.level - 1, cfg)
      requires hitDelay == HitDelay && AllPositive(hitCooldown)
      modifies this`discCount, this`rotationSpeed, this`radius, this`damage, this`size
      ensures Valid()
      ensures Stats() == DiscStep(base.level, old(Stats()), cfg)
    {
      var level := base.level;
      if level == 2 {
        discCount := 2;
      } else if level == 3 {
        rotationSpeed := cfg.discRotationSpeed * 1.3;
      } else if level == 4 {
        discCount := 3;
      } else if level == 5 {
        radius := cfg.discRadius * 1.2;
      } else if level == 6 {
        discCount := 4;
      } else if level == 7 {
        damage := cfg.discDamage * 1.5;
      } else if level >= 8 {
        size := 16;
      }
    }
  }
}
