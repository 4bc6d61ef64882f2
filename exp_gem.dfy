/** The experience gem (`entities/exp_gem.py`): once the player comes within pickup
    range it is drawn toward the player for good, and it is collected within 10 pixels. */
module Gems {
  import opened Numbers
  import opened Settings
  import opened Bullets

  /** The distance below which a gem is collected. */
  const CollectRadius: real := 10.0
  /** The distance below which an attracted gem stops moving. */
  const RestRadius: real := 5.0

  /** The attraction latch of one update: on once in range, never off again. */
  function Attract(attracted: bool, distance: real, pickupRadius: real): (r: bool)
    ensures r <==> attracted || distance < pickupRadius
  {
    attracted || distance < pickupRadius
  }

  /** The latch after a run of updates at the given distances. */
  function AttractAll(attracted: bool, distances: seq<real>, pickupRadius: real): bool {
    if |distances| == 0 then attracted
    else Attract(AttractAll(attracted, distances[..|distances| - 1], pickupRadius), distances[|distances| - 1], pickupRadius)
  }

  /** Over any run of updates the gem is attracted iff it started attracted or was within
      the pickup radius at some update. */
  lemma {:induction false} AttractAllLatches(attracted: bool, distances: seq<real>, pickupRadius: real)
    ensures AttractAll(attracted, distances, pickupRadius)
        <==> attracted || exists i :: 0 <= i < |distances| && distances[i] < pickupRadius
  {
    if |distances| > 0 {
      var init := distances[..|distances| - 1];
      AttractAllLatches(attracted, init, pickupRadius);
      if exists i :: 0 <= i < |init| && init[i] < pickupRadius {
        var i :| 0 <= i < |init| && init[i] < pickupRadius;
        assert distances[i] < pickupRadius;
      }
      if exists i :: 0 <= i < |distances| && distances[i] < pickupRadius {
        var i :| 0 <= i < |distances| && distances[i] < pickupRadius;
        if i < |init| {
          assert init[i] < pickupRadius;
        }
      }
    }
  }

  class ExpGem {
    var x: real
    var y: real
    const value: real
    const size: int
    const color: Color
    var attracted: bool
    var vx: real
    var vy: real
    const attractionSpeed: real
    var pulse: real

    constructor(x: real, y: real, value: real, color: Color)
      ensures this.x == x && this.y == y && this.value == value && this.color == color
      ensures size == 8 && attractionSpeed == 400.0
      ensures !attracted && vx == 0.0 && vy == 0.0 && pulse == 0.0
    {
      this.x, this.y := x, y;
      this.value := value;
      size := 8;
      this.color := color;
      attracted := false;
      vx, vy := 0.0, 0.0;
      attractionSpeed := 400.0;
      pulse := 0.0;
    }

    /** `update(dt, player_pos, pickup_radius)`, measured from where the gem was: the
        pulse advances, the latch is updated, an attracted gem farther than 5 pixels steps
        toward the player at the attraction speed, and the result says whether the gem was
        within 10 pixels. */
    method Update(dt: real, playerX: real, playerY: real, pickupRadius: real, m: MathLib)
      returns (collected: bool)
      modifies this`pulse, this`attracted, this`vx, this`vy, this`x, this`y
      ensures pulse == old(pulse) + dt * 5.0
      ensures var dx, dy := playerX - old(x), playerY - old(y);
              var d := m.hypot(dx, dy);
              && attracted == Attract(old(attracted), d, pickupRadius)
              && collected == (d < CollectRadius)
              && (attracted && d > RestRadius ==>
                    && vx == Toward(dx, d, attractionSpeed) && vy == Toward(dy, d, attractionSpeed)
                    && x == Travel(old(x), vx, dt) && y == Travel(old(y), vy, dt))
              && (!(attracted && d > RestRadius) ==>
                    x == old(x) && y == old(y) && vx == old(vx) && vy == old(vy))
    {
      pulse := pulse + dt * 5.0;
      var dx, dy := playerX - x, playerY - y;
      var distance := m.hypot(dx, dy);
      if distance < pickupRadius {
        attracted := true;
      }
      if attracted && distance > RestRadius {
        if distance > 0.0 {
          vx := Toward(dx, distance, attractionSpeed);
          vy := Toward(dy, distance, attractionSpeed);
          x := x + vx * dt;
          y := y + vy * dt;
        }
      }
      collected := distance < CollectRadius;
    }
  }

  /** The collection and attraction tests on squared distances. */
  lemma CollectIffSquare(m: MathLib, dx: real, dy: real, pickupRadius: real)
    requires m.Valid()
    ensures m.hypot(dx, dy) < CollectRadius <==> Norm2(dx, dy) < 100.0
    ensures m.hypot(dx, dy) < pickupRadius <==> SqBelow(Norm2(dx, dy), pickupRadius)
    ensures m.hypot(dx, dy) > RestRadius <==> Norm2(dx, dy) > 25.0
  {
    HypotBelow(m, dx, dy, CollectRadius);
    HypotBelow(m, dx, dy, pickupRadius);
    HypotAbove(m, dx, dy, RestRadius);
  }
}
