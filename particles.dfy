/** The particle effects (`systems/particles.py`): void particles that drift and fade out
    over their own lifetime, and death particles that also fall under gravity. The random
    parameters are passed in as draws within the ranges the random module gives. */
module Particles {
  import opened Numbers
  import opened Settings

  /** The downward acceleration of death particles. */
  const Gravity: real := 400.0
  /** The particles `create_death_particles` makes by default. */
  const DeathBurst: int := 15
  /** The largest offset `create_void_particles` draws along each axis. */
  const VoidSpread: int := 50

  /** One fade step: life drops by dt as a fraction of the particle's lifetime. */
  function Fade(life: real, dt: real, maxLife: real): (r: real)
    requires maxLife > 0.0
    ensures r * maxLife == life * maxLife - dt
  {
    life - dt / maxLife
  }

  /** Life after a run of updates. */
  function FadeAll(life: real, dts: seq<real>, maxLife: real): real
    requires maxLife > 0.0
  {
    if |dts| == 0 then life else Fade(FadeAll(life, dts[..|dts| - 1], maxLife), dts[|dts| - 1], maxLife)
  }

  /** Life falls linearly with elapsed time: after any run of updates it is the starting
      life less the elapsed time over the lifetime. */
  lemma {:induction false} FadeAllLinear(life: real, dts: seq<real>, maxLife: real)
    requires maxLife > 0.0
    ensures FadeAll(life, dts, maxLife) * maxLife == life * maxLife - Sum(dts)
  {
    if |dts| > 0 {
      FadeAllLinear(life, dts[..|dts| - 1], maxLife);
    }
  }

  /** A particle that starts at full life is still shown exactly while less than its
      lifetime has elapsed. */
  lemma LivesForItsLifetime(dts: seq<real>, maxLife: real)
    requires maxLife > 0.0
    ensures FadeAll(1.0, dts, maxLife) > 0.0 <==> Sum(dts) < maxLife
  {
    FadeAllLinear(1.0, dts, maxLife);
    var l := FadeAll(1.0, dts, maxLife);
    if l > 0.0 {
      PositiveProduct(l, maxLife);
    } else {
      NonNegativeProduct(-l, maxLife);
    }
  }

  /** The `uniform`/`randint` draws behind a void particle. */
  datatype VoidDraw = VoidDraw(vx: real, vy: real, maxLife: real, size: int, redShift: int, blueShift: int)

  predicate VoidDrawInRange(d: VoidDraw) {
    && -80.0 <= d.vx <= 80.0 && -80.0 <= d.vy <= 80.0
    && 1.5 <= d.maxLife <= 3.0
    && 2 <= d.size <= 8
    && -20 <= d.redShift <= 20 && -20 <= d.blueShift <= 20
  }

  class VoidParticle {
    var x: real
    var y: real
    const vx: real
    const vy: real
    var life: real
    const maxLife: real
    const size: int
    const color: Color

    constructor(x: real, y: real, d: VoidDraw)
      requires VoidDrawInRange(d)
      ensures this.x == x && this.y == y && vx == d.vx && vy == d.vy
      ensures life == 1.0 && maxLife == d.maxLife && maxLife > 0.0 && size == d.size
      ensures color == Color(80 + d.redShift, 20, 100 + d.blueShift)
    {
      this.x, this.y := x, y;
      vx, vy := d.vx, d.vy;
      life := 1.0;
      maxLife := d.maxLife;
      size := d.size;
      color := Color(80 + d.redShift, 20, 100 + d.blueShift);
    }

    /** `update(dt)`: drift, fade, and report whether the particle is still visible. */
    method Update(dt: real) returns (visible: bool)
      requires maxLife > 0.0
      modifies this`x, this`y, this`life
      ensures x == old(x) + vx * dt && y == old(y) + vy * dt
      ensures life == Fade(old(life), dt, maxLife)
      ensures visible <==> life > 0.0
    {
      x := x + vx * dt;
      y := y + vy * dt;
      life := life - dt / maxLife;
      visible := life > 0.0;
    }
  }

  /** The `uniform`/`randint` draws behind a death particle: direction, speed, lifetime
      and size. */
  datatype DeathDraw = DeathDraw(angle: real, speed: real, maxLife: real, size: int)

  predicate DeathDrawInRange(d: DeathDraw, pi: real) {
    && 0.0 <= d.angle <= pi * 2.0
    && 100.0 <= d.speed <= 300.0
    && 0.3 <= d.maxLife <= 0.8
    && 3 <= d.size <= 7
  }

  /** Vertical speed after a run of updates: each adds gravity times dt. */
  function FallAll(vy: real, dts: seq<real>): real {
    if |dts| == 0 then vy else FallAll(vy, dts[..|dts| - 1]) + Gravity * dts[|dts| - 1]
  }

  /** Gravity is uniform: the vertical speed grows by gravity times the elapsed time. */
  lemma {:induction false} FallAllLinear(vy: real, dts: seq<real>)
    ensures FallAll(vy, dts) == vy + Gravity * Sum(dts)
  {
    if |dts| > 0 {
      FallAllLinear(vy, dts[..|dts| - 1]);
    }
  }

  class DeathParticle {
    var x: real
    var y: real
    const vx: real
    var vy: real
    var life: real
    const maxLife: real
    const size: int
    const color: Color
    const gravity: real

    constructor(x: real, y: real, color: Color, d: DeathDraw, m: MathLib)
      requires DeathDrawInRange(d, m.pi)
      ensures this.x == x && this.y == y && this.color == color
      ensures vx == m.cos(d.angle) * d.speed && vy == m.sin(d.angle) * d.speed
      ensures life == 1.0 && maxLife == d.maxLife && maxLife > 0.0 && size == d.size && gravity == Gravity
    {
      this.x, this.y := x, y;
      vx := m.cos(d.angle) * d.speed;
      vy := m.sin(d.angle) * d.speed;
      life := 1.0;
      maxLife := d.maxLife;
      size := d.size;
      this.color := color;
      gravity := Gravity;
    }

    /** `update(dt)`: move with the speed of the previous frame, then fall and fade, and
        report whether the particle is still visible. */
    method Update(dt: real) returns (visible: bool)
      requires maxLife > 0.0 && gravity == Gravity
      modifies this`x, this`y, this`vy, this`life
      ensures x == old(x) + vx * dt && y == old(y) + old(vy) * dt
      ensures vy == old(vy) + Gravity * dt
      ensures life == Fade(old(life), dt, maxLife)
      ensures visible <==> life > 0.0
    {
      x := x + vx * dt;
      y := y + vy * dt;
      vy := vy + gravity * dt;
      life := life - dt / maxLife;
      visible := life > 0.0;
    }
  }

  /** `create_death_particles(x, y, color, count)`: `count` new particles (none for a
      non-positive count), all starting at (x, y) in the zombie's colour at full life. */
  method CreateDeathParticles(x: real, y: real, color: Color, count: int, draws: seq<DeathDraw>, m: MathLib)
    returns (ps: seq<DeathParticle>)
    requires |draws| >= count
    requires forall i :: 0 <= i < count ==> DeathDrawInRange(draws[i], m.pi)
    ensures |ps| == if count < 0 then 0 else count
    ensures forall i :: 0 <= i < |ps| ==>
              && fresh(ps[i]) && ps[i].x == x && ps[i].y == y && ps[i].color == color
              && ps[i].life == 1.0 && ps[i].maxLife == draws[i].maxLife && ps[i].gravity == Gravity
    ensures Distinct(ps)
  {
    ps := [];
    var i := 0;
    while i < count
      invariant 0 <= i && (count >= 0 ==> i <= count) && (count < 0 ==> i == 0) && |ps| == i
      invariant forall j :: 0 <= j < i ==>
                  && fresh(ps[j]) && ps[j].x == x && ps[j].y == y && ps[j].color == color
                  && ps[j].life == 1.0 && ps[j].maxLife == draws[j].maxLife && ps[j].gravity == Gravity
      invariant Distinct(ps)
    {
      var p := new DeathParticle(x, y, color, draws[i], m);
      ps := ps + [p];
      i := i + 1;
    }
  }

  /** `create_void_particles(x, y, count)`: `count` new particles (none for a non-positive
      count), each at (x, y) shifted by its drawn offsets, so within 50 pixels on each axis. */
  method CreateVoidParticles(x: real, y: real, count: int, offsets: seq<(int, int)>, draws: seq<VoidDraw>)
    returns (ps: seq<VoidParticle>)
    requires |offsets| >= count && |draws| >= count
    requires forall i :: 0 <= i < count ==>
               && -VoidSpread <= offsets[i].0 <= VoidSpread && -VoidSpread <= offsets[i].1 <= VoidSpread
               && VoidDrawInRange(draws[i])
    ensures |ps| == if count < 0 then 0 else count
    ensures forall i :: 0 <= i < |ps| ==>
              && fresh(ps[i]) && ps[i].life == 1.0 && ps[i].maxLife > 0.0
              && ps[i].x == x + offsets[i].0 as real && ps[i].y == y + offsets[i].1 as real
              && x - VoidSpread as real <= ps[i].x <= x + VoidSpread as real
              && y - VoidSpread as real <= ps[i].y <= y + VoidSpread as real
    ensures Distinct(ps)
  {
    ps := [];
    var i := 0;
    while i < count
      invariant 0 <= i && (count >= 0 ==> i <= count) && (count < 0 ==> i == 0) && |ps| == i
      invariant forall j :: 0 <= j < i ==>
                  && fresh(ps[j]) && ps[j].life == 1.0 && ps[j].maxLife > 0.0
                  && ps[j].x == x + offsets[j].0 as real && ps[j].y == y + offsets[j].1 as real
      invariant Distinct(ps)
    {
      var (ox, oy) := offsets[i];
      var p := new VoidParticle(x + ox as real, y + oy as real, draws[i]);
      ps := ps + [p];
      i := i + 1;
    }
  }
}
