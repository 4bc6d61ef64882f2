/** The player (`entities/player.py`): keyboard movement, a half-second immunity window
    after every landed hit, and death when health runs out. */
module Players {
  import opened Numbers
  import opened Geometry
  import opened Settings
  import opened Sprites

  /** The movement keys `handle_input` polls. */
  datatype Key = KeyA | KeyD | KeyW | KeyS | ArrowLeft | ArrowRight | ArrowUp | ArrowDown

  /** The direction the held keys ask for, each component in {-1, 0, 1}: left and right
      (up and down) cancel out when both are held. */
  function Direction(held: set<Key>): (v: (int, int))
    ensures -1 <= v.0 <= 1 && -1 <= v.1 <= 1
    ensures v.0 == 0 <==> ((KeyA in held || ArrowLeft in held) <==> (KeyD in held || ArrowRight in held))
    ensures v.1 == 0 <==> ((KeyW in held || ArrowUp in held) <==> (KeyS in held || ArrowDown in held))
    ensures v.0 < 0 <==> (KeyA in held || ArrowLeft in held) && !(KeyD in held || ArrowRight in held)
    ensures v.1 < 0 <==> (KeyW in held || ArrowUp in held) && !(KeyS in held || ArrowDown in held)
  {
    var vx := (if KeyA in held || ArrowLeft in held then -1 else 0) + (if KeyD in held || ArrowRight in held then 1 else 0);
    var vy := (if KeyW in held || ArrowUp in held then -1 else 0) + (if KeyS in held || ArrowDown in held then 1 else 0);
    (vx, vy)
  }

  /** `int(v / mag * speed * dt)`: one component of a frame's movement, in whole pixels. */
  function Stride(v: int, mag: real, speed: real, dt: real): int
    requires mag != 0.0
  {
    Trunc(v as real / mag * speed * dt)
  }

  /** What `take_damage` and `update` read and write. */
  datatype PlayerVitals = PlayerVitals(health: int, alive: bool, invulnerableTime: real)

  /** The length of the immunity window after a landed hit, in seconds. */
  const ImmunityWindow: real := 0.5

  /** `take_damage(amount)`: ignored while immune; otherwise health drops, the immunity
      window opens, and at 0 or below health is pinned to 0 and the player dies. */
  function Hit(v: PlayerVitals, amount: int): (r: (PlayerVitals, bool))
    ensures v.invulnerableTime > 0.0 ==> r == (v, false)
    ensures v.invulnerableTime <= 0.0 ==> r.0.invulnerableTime == ImmunityWindow
    ensures v.invulnerableTime <= 0.0 ==> (r.1 <==> v.health - amount <= 0)
    ensures v.invulnerableTime <= 0.0 && r.1 ==> r.0.health == 0 && !r.0.alive
    ensures v.invulnerableTime <= 0.0 && !r.1 ==> r.0.health == v.health - amount && r.0.alive == v.alive
  {
    if v.invulnerableTime > 0.0 then (v, false)
    else
      var h := v.health - amount;
      if h <= 0 then (PlayerVitals(0, false, ImmunityWindow), true)
      else (PlayerVitals(h, v.alive, ImmunityWindow), false)
  }

  /** The immunity countdown of `update(dt)`. */
  function Cooldown(t: real, dt: real): (r: real)
    ensures t > 0.0 ==> r == t - dt
    ensures t <= 0.0 ==> r == t
  {
    if t > 0.0 then t - dt else t
  }

  /** The countdown after `update(dt)` for each dt in `dts`. */
  function CooldownAll(t: real, dts: seq<real>): real {
    if |dts| == 0 then t else Cooldown(CooldownAll(t, dts[..|dts| - 1]), dts[|dts| - 1])
  }

  /** Until the frame times since a hit add up to the window, the countdown is still
      positive and is exactly the window minus the elapsed time. */
  lemma {:induction false} ImmunityLasts(t: real, dts: seq<real>)
    requires forall i :: 0 <= i < |dts| ==> dts[i] >= 0.0
    requires Sum(dts) < t
    ensures CooldownAll(t, dts) == t - Sum(dts) > 0.0
  {
    if |dts| > 0 {
      var init := dts[..|dts| - 1];
      assert forall i :: 0 <= i < |init| ==> init[i] >= 0.0;
      assert Sum(init) <= Sum(dts);
      ImmunityLasts(t, init);
    }
  }

  /** So a second hit within the window changes nothing: any landed hit followed by
      frames lasting less than the window in total leaves the next hit without effect. */
  lemma SecondHitIgnored(v: PlayerVitals, first: int, dts: seq<real>, second: int)
    requires v.invulnerableTime <= 0.0
    requires forall i :: 0 <= i < |dts| ==> dts[i] >= 0.0
    requires Sum(dts) < ImmunityWindow
    ensures var after := Hit(v, first).0;
            var cooled := after.(invulnerableTime := CooldownAll(after.invulnerableTime, dts));
            Hit(cooled, second) == (cooled, false)
  {
    ImmunityLasts(ImmunityWindow, dts);
  }

  class Player {
    var rect: Rect
    var color: Color
    var maxHealth: int
    var health: int
    var speed: real
    var pickupRadius: real
    var alive: bool
    var invulnerableTime: real
    const animation: AnimatedSprite

    function Vitals(): PlayerVitals
      reads this
    {
      PlayerVitals(health, alive, invulnerableTime)
    }

    constructor(x: real, y: real, cfg: Config, color: Color)
      ensures rect == Centered(x, y, cfg.playerSize, cfg.playerSize) && this.color == color
      ensures maxHealth == cfg.playerMaxHealth && health == maxHealth
      ensures speed == cfg.playerSpeed && pickupRadius == cfg.playerPickupRadius
      ensures alive && invulnerableTime == 0.0
      ensures fresh(animation) && animation.Valid()
      ensures animation.numFrames == 3 && animation.fps == 6.0 && animation.layout == Vertical
      ensures animation.frameWidth == 64 && animation.frameHeight == 64
    {
      rect := Centered(x, y, cfg.playerSize, cfg.playerSize);
      this.color := color;
      maxHealth := cfg.playerMaxHealth;
      health := cfg.playerMaxHealth;
      speed := cfg.playerSpeed;
      pickupRadius := cfg.playerPickupRadius;
      alive := true;
      invulnerableTime := 0.0;
      animation := new AnimatedSprite(64, 64, 3, 6.0, Vertical);
    }

    /** `handle_input(keys, dt)`: a live player holding a direction moves by the unit
        direction times speed times dt, each component truncated toward zero. */
    method HandleInput(held: set<Key>, dt: real, m: MathLib)
      requires m.Valid()
      modifies this`rect
      ensures !old(alive) || Direction(held) == (0, 0) ==> rect == old(rect)
      ensures old(alive) && Direction(held) != (0, 0) ==>
                var mag := m.hypot(Direction(held).0 as real, Direction(held).1 as real);
                mag > 0.0 &&
                rect == old(rect).Moved(Stride(Direction(held).0, mag, speed, dt) as real,
                                        Stride(Direction(held).1, mag, speed, dt) as real)
    {
      if !alive {
        return;
      }
      var vx, vy := Direction(held).0, Direction(held).1;
      if vx != 0 || vy != 0 {
        var mag := m.hypot(vx as real, vy as real);
        HypotPositive(m, vx as real, vy as real);
        assert Norm2(vx as real, vy as real) > 0.0 by {
          if vx != 0 { assert vx as real * vx as real > 0.0; }
          else { assert vy as real * vy as real > 0.0; }
        }
        rect := rect.Moved(Stride(vx, mag, speed, dt) as real, Stride(vy, mag, speed, dt) as real);
      }
    }

    /** `clamp(width, height)`: keep the player on screen. */
    method Clamp(width: int, height: int)
      modifies this`rect
      ensures rect == ClampInto(old(rect), Rect(0.0, 0.0, width as real, height as real))
    {
      rect := ClampInto(rect, Rect(0.0, 0.0, width as real, height as real));
    }

    method TakeDamage(amount: int) returns (died: bool)
      modifies this`health, this`alive, this`invulnerableTime
      ensures (Vitals(), died) == Hit(old(Vitals()), amount)
    {
      if invulnerableTime > 0.0 {
        return false;
      }
      health := health - amount;
      invulnerableTime := ImmunityWindow;
      if health <= 0 {
        health := 0;
        alive := false;
        return true;
      }
      return false;
    }

    /** `update(dt)`: count the immunity window down and advance the animation. */
    method Update(dt: real)
      requires animation.Valid()
      modifies this`invulnerableTime, animation`currentFrame, animation`animationTimer
      ensures animation.Valid()
      ensures invulnerableTime == Cooldown(old(invulnerableTime), dt)
      ensures (animation.currentFrame, animation.animationTimer)
           == Advance(old(animation.currentFrame), old(animation.animationTimer), dt,
                      animation.frameDuration, animation.numFrames)
    {
      if invulnerableTime > 0.0 {
        invulnerableTime := invulnerableTime - dt;
      }
      animation.Update(dt);
    }
  }
}
