/** The game loop (`main.py`): the run flags and their key transitions, and one tick of
    `Game.update` over the entity lists. Pygame's event queue, clock, key state and random
    module are replaced by the events and draws passed in. */
module GameLoop {
  import opened Numbers
  import opened Geometry
  import opened Settings
  import opened Experience
  import opened Zombies
  import opened Players
  import opened Bullets
  import opened Gems
  import opened Spawning
  import opened Weapons
  import opened Guns
  import opened Discs
  import opened Upgrades
  import opened Menus
  import opened Particles

  /** The colours the configuration gives the player, the gems and the bullets. */
  datatype Palette = Palette(player: Color, exp: Color, bullet: Color)

  /** The keys the loop reacts to. */
  datatype GameKey = Escape | KeyR | OtherKey

  /** The pygame events the loop reacts to; everything else is `Ignored`. */
  datatype Event = Quit | KeyDown(key: GameKey) | MouseDown(x: int, y: int) | Ignored

  /** The run flags of the loop. */
  datatype Flags = Flags(running: bool, paused: bool, gameOver: bool)

  /** What an event asks of the game besides the flags. */
  datatype Action = NoAction | RestartGame | MenuClick(x: int, y: int)

  /** `handle_events` on one event: quitting stops the loop; Escape stops it after game
      over and otherwise toggles pause (also while the menu is open); R restarts only
      after game over; a click goes to the menu only while it is open. */
  function OnEvent(f: Flags, e: Event, menuActive: bool): (r: (Flags, Action))
    ensures e == Quit ==> r == (f.(running := false), NoAction)
    ensures e == KeyDown(Escape) && f.gameOver ==> r == (f.(running := false), NoAction)
    ensures e == KeyDown(Escape) && !f.gameOver ==> r == (f.(paused := !f.paused), NoAction)
    ensures e == KeyDown(KeyR) ==> r == (f, if f.gameOver then RestartGame else NoAction)
    ensures e.MouseDown? ==> r == (f, if menuActive then MenuClick(e.x, e.y) else NoAction)
    ensures e == KeyDown(OtherKey) || e == Ignored ==> r == (f, NoAction)
  {
    match e
    case Quit => (f.(running := false), NoAction)
    case KeyDown(k) =>
      if k == Escape then
        if f.gameOver then (f.(running := false), NoAction) else (f.(paused := !f.paused), NoAction)
      else if k == KeyR && f.gameOver then (f, RestartGame)
      else (f, NoAction)
    case MouseDown(x, y) => (f, if menuActive then MenuClick(x, y) else NoAction)
    case Ignored => (f, NoAction)
  }

  /** Pausing is a toggle: two Escapes before game over give back the flags they started
      from, whether or not the menu is open. */
  lemma EscapeTwiceRestores(f: Flags, menuActive: bool)
    requires !f.gameOver
    ensures var (g, _) := OnEvent(f, KeyDown(Escape), menuActive);
            OnEvent(g, KeyDown(Escape), menuActive) == (f, NoAction)
  {}

  /** Pausing and unpausing never restart the game or stop the loop, and game over is only
      ever left by a restart. */
  lemma FlagsOnlyWhatTheEventSays(f: Flags, e: Event, menuActive: bool)
    ensures var (g, a) := OnEvent(f, e, menuActive);
            && g.gameOver == f.gameOver
            && (g.running != f.running ==> !g.running && (e == Quit || (e == KeyDown(Escape) && f.gameOver)))
            && (g.paused != f.paused ==> e == KeyDown(Escape) && !f.gameOver)
            && (a == RestartGame ==> f.gameOver && e == KeyDown(KeyR))
  {}

  /** A particle of either kind. */
  datatype Particle = Drift(void: VoidParticle) | Burst(death: DeathParticle)

  /** The void and the death particles of a list. */
  function Voids(ps: seq<Particle>): set<VoidParticle> {
    set s | s in ps && s.Drift? :: s.void
  }

  function Deaths(ps: seq<Particle>): set<DeathParticle> {
    set s | s in ps && s.Burst? :: s.death
  }

  /** The object behind a void particle, and the one behind a death particle. */
  function VoidOf(s: Particle): set<VoidParticle> {
    if s.Drift? then {s.void} else {}
  }

  function DeathOf(s: Particle): set<DeathParticle> {
    if s.Burst? then {s.death} else {}
  }

  /** The remaining life of a particle. */
  function Life(s: Particle): real
    reads VoidOf(s)`life, DeathOf(s)`life
  {
    match s
    case Drift(p) => p.life
    case Burst(p) => p.life
  }

  /** What a particle's `update` relies on: a positive lifetime and, for death particles,
      the usual gravity. */
  ghost predicate ParticleValid(s: Particle) {
    match s
    case Drift(p) => p.maxLife > 0.0
    case Burst(p) => p.maxLife > 0.0 && p.gravity == Gravity
  }

  ghost predicate ParticlesValid(ps: seq<Particle>) {
    forall i :: 0 <= i < |ps| ==> ParticleValid(ps[i])
  }

  /** The particles still visible, in order. */
  function Visible(ps: seq<Particle>): (r: seq<Particle>)
    reads Voids(ps)`life, Deaths(ps)`life
    ensures forall s :: s in r ==> s in ps && Life(s) > 0.0
    ensures forall i :: 0 <= i < |ps| && Life(ps[i]) > 0.0 ==> ps[i] in r
    ensures Distinct(ps) ==> Distinct(r)
  {
    if |ps| == 0 then []
    else
      assert Voids(ps[..|ps| - 1]) <= Voids(ps) && Deaths(ps[..|ps| - 1]) <= Deaths(ps);
      Visible(ps[..|ps| - 1]) + (if Life(ps[|ps| - 1]) > 0.0 then [ps[|ps| - 1]] else [])
  }

  /** The lifetime of a particle, fixed when it is made. */
  function MaxLife(s: Particle): real {
    match s
    case Drift(p) => p.maxLife
    case Burst(p) => p.maxLife
  }

  /** The changing part of a particle: position, vertical speed and remaining life. */
  datatype ParticleState = ParticleState(x: real, y: real, vy: real, life: real)

  function StateOf(s: Particle): (r: ParticleState)
    reads VoidOf(s)`x, VoidOf(s)`y, VoidOf(s)`life, DeathOf(s)`x, DeathOf(s)`y, DeathOf(s)`vy, DeathOf(s)`life
    ensures r.life == Life(s)
  {
    match s
    case Drift(p) => ParticleState(p.x, p.y, p.vy, p.life)
    case Burst(p) => ParticleState(p.x, p.y, p.vy, p.life)
  }

  /** A particle's `update(dt)` on its changing part: void particles drift at their own
      speed; death particles move with the vertical speed of the previous frame and then
      fall; both fade. */
  function Advance(s: Particle, m: ParticleState, dt: real): (r: ParticleState)
    requires MaxLife(s) > 0.0
    ensures r.life * MaxLife(s) == m.life * MaxLife(s) - dt
  {
    match s
    case Drift(p) => ParticleState(m.x + p.vx * dt, m.y + p.vy * dt, m.vy, Fade(m.life, dt, p.maxLife))
    case Burst(p) => ParticleState(m.x + p.vx * dt, m.y + m.vy * dt, m.vy + Gravity * dt, Fade(m.life, dt, p.maxLife))
  }

  /** One particle's `update(dt)`: it advances, and it is still visible exactly while some
      of its life remains. */
  method Tick(s: Particle, dt: real) returns (visible: bool)
    requires ParticleValid(s)
    modifies VoidOf(s), DeathOf(s)
    ensures StateOf(s) == Advance(s, old(StateOf(s)), dt)
    ensures visible <==> Life(s) > 0.0
  {
    match s
    case Drift(p) => visible := p.Update(dt);
    case Burst(p) => visible := p.Update(dt);
  }

  /** The changing parts of the particles of a list. */
  function States(ps: seq<Particle>): (r: seq<ParticleState>)
    reads Voids(ps)`x, Voids(ps)`y, Voids(ps)`life, Deaths(ps)`x, Deaths(ps)`y, Deaths(ps)`vy, Deaths(ps)`life
    ensures |r| == |ps| && forall j :: 0 <= j < |ps| ==> r[j] == StateOf(ps[j])
  {
    if |ps| == 0 then []
    else
      assert Voids(ps[..|ps| - 1]) <= Voids(ps) && Deaths(ps[..|ps| - 1]) <= Deaths(ps);
      States(ps[..|ps| - 1]) + [StateOf(ps[|ps| - 1])]
  }

  /** Every particle of a list advanced from its snapshot. */
  function AdvanceAll(ps: seq<Particle>, motes: seq<ParticleState>, dt: real): (r: seq<ParticleState>)
    requires |ps| == |motes| && forall j :: 0 <= j < |ps| ==> MaxLife(ps[j]) > 0.0
    ensures |r| == |ps| && forall j :: 0 <= j < |ps| ==> r[j] == Advance(ps[j], motes[j], dt)
  {
    seq(|ps|, j requires 0 <= j < |ps| => Advance(ps[j], motes[j], dt))
  }

  /** The particles among the first n whose advanced life is still positive, in order. */
  function Shown(ps: seq<Particle>, motes: seq<ParticleState>, dt: real, n: nat): seq<Particle>
    requires n <= |ps| == |motes| && forall j :: 0 <= j < |ps| ==> MaxLife(ps[j]) > 0.0
  {
    if n == 0 then []
    else
      Shown(ps, motes, dt, n - 1) + (if Advance(ps[n - 1], motes[n - 1], dt).life > 0.0 then [ps[n - 1]] else [])
  }

  /** The shown particles come from the list in order, so they have no repeats when the
      list has none, and are in a state their updates accept when the list's are. */
  lemma {:induction false} ShownKeeps(ps: seq<Particle>, motes: seq<ParticleState>, dt: real, n: nat)
    requires n <= |ps| == |motes| && forall j :: 0 <= j < |ps| ==> MaxLife(ps[j]) > 0.0
    ensures forall s :: s in Shown(ps, motes, dt, n) ==> s in ps[..n]
    ensures Distinct(ps) ==> Distinct(Shown(ps, motes, dt, n))
    ensures ParticlesValid(ps) ==> ParticlesValid(Shown(ps, motes, dt, n))
  {
    if n > 0 {
      ShownKeeps(ps, motes, dt, n - 1);
      assert ps[..n] == ps[..n - 1] + [ps[n - 1]];
      var r := Shown(ps, motes, dt, n - 1);
      if Distinct(ps) {
        assert ps[n - 1] !in ps[..n - 1];
        assert ps[n - 1] !in r;
      }
      if ParticlesValid(ps) {
        assert forall k :: 0 <= k < |r| ==> ParticleValid(r[k]) by {
          forall k | 0 <= k < |r| ensures ParticleValid(r[k]) {
            assert r[k] in ps[..n - 1];
          }
        }
      }
    }
  }

  /** Once every particle has advanced from its snapshot, the visible ones among the first
      n are the shown ones. */
  lemma {:induction false} VisibleShown(ps: seq<Particle>, motes: seq<ParticleState>, dt: real, n: nat)
    requires n <= |ps| == |motes| && forall j :: 0 <= j < |ps| ==> MaxLife(ps[j]) > 0.0
    requires forall j :: 0 <= j < |ps| ==> StateOf(ps[j]) == Advance(ps[j], motes[j], dt)
    ensures Visible(ps[..n]) == Shown(ps, motes, dt, n)
  {
    if n > 0 {
      VisibleShown(ps, motes, dt, n - 1);
      assert ps[..n][..n - 1] == ps[..n - 1];
      assert Life(ps[n - 1]) == StateOf(ps[n - 1]).life;
    }
  }

  /** The particle step of `update` over a list without repeats, whose particles stood at
      `motes`: every particle advances, and the list keeps, in order, those still visible. */
  method UpdateParticles(ps: seq<Particle>, ghost motes: seq<ParticleState>, dt: real) returns (kept: seq<Particle>)
    requires Distinct(ps) && ParticlesValid(ps)
    requires |motes| == |ps| && forall j :: 0 <= j < |ps| ==> motes[j] == StateOf(ps[j])
    modifies Voids(ps), Deaths(ps)
    ensures forall j :: 0 <= j < |ps| ==> StateOf(ps[j]) == Advance(ps[j], motes[j], dt)
    ensures kept == Shown(ps, motes, dt, |ps|)
  {
    kept := [];
    var i := 0;
    while i < |ps|
      invariant 0 <= i <= |ps|
      invariant forall j :: 0 <= j < i ==> StateOf(ps[j]) == Advance(ps[j], motes[j], dt)
      invariant forall j :: i <= j < |ps| ==> StateOf(ps[j]) == motes[j]
      invariant kept == Shown(ps, motes, dt, i)
    {
      var s := ps[i];
      ObjectsDiffer(ps, i);
      assert s in ps && (s.Drift? ==> s.void in Voids(ps)) && (s.Burst? ==> s.death in Deaths(ps));
      var visible := Tick(s, dt);
      if visible {
        kept := kept + [s];
      } else {
        assert kept + [] == kept;
      }
      i := i + 1;
    }
  }

  /** In a list without repeats, each particle's object is not that of any other. */
  lemma ObjectsDiffer(ps: seq<Particle>, i: nat)
    requires Distinct(ps) && i < |ps|
    ensures forall j :: 0 <= j < |ps| && j != i ==> VoidOf(ps[j]) !! VoidOf(ps[i]) && DeathOf(ps[j]) !! DeathOf(ps[i])
  {
  }

  /** Appending death particles to a list adds no void particle, and each death
      particle is an old one or one of those appended. */
  lemma BurstsAppended(ps: seq<Particle>, qs: seq<Particle>)
    requires |ps| <= |qs| && qs[..|ps|] == ps && forall j :: |ps| <= j < |qs| ==> qs[j].Burst?
    ensures Voids(qs) == Voids(ps)
    ensures forall d :: d in Deaths(qs) ==> d in Deaths(ps) || exists j :: |ps| <= j < |qs| && qs[j].death == d
  {
    forall s | s in qs
      ensures s in ps || exists j :: |ps| <= j < |qs| && qs[j] == s
    {
      var k :| 0 <= k < |qs| && qs[k] == s;
      if k < |ps| {
        assert ps[k] == s;
      }
    }
  }

  /** Appending fresh objects without repeats to a list without repeats gives a list
      without repeats. */
  lemma AppendFresh<T>(a: seq<T>, b: seq<T>)
    requires Distinct(a) && Distinct(b)
    requires forall i, j :: 0 <= i < |a| && 0 <= j < |b| ==> a[i] != b[j]
    ensures Distinct(a + b)
  {}

  /** `list.remove(x)`: the sequence without its first occurrence of x. */
  function Remove<T(==)>(s: seq<T>, x: T): (r: seq<T>)
    ensures x !in s ==> r == s
    ensures x in s ==> |r| == |s| - 1
    ensures forall y :: y in r ==> y in s
    ensures Distinct(s) ==> Distinct(r) && x !in r
    ensures forall i :: 0 <= i < |s| && s[i] != x ==> s[i] in r
  {
    if |s| == 0 then []
    else
      assert Distinct(s) ==> Distinct(s[1..]) && s[0] !in s[1..] by {
        if Distinct(s) {
          forall i, j | 0 <= i < j < |s| - 1 ensures s[1..][i] != s[1..][j] {
            assert s[1..][i] == s[i + 1] && s[1..][j] == s[j + 1];
          }
        }
      }
      if s[0] == x then s[1..]
      else [s[0]] + Remove(s[1..], x)
  }

  /** Removing x keeps every other element. */
  lemma RemoveOthers<T>(s: seq<T>, x: T)
    ensures forall y :: y != x ==> (y in Remove(s, x) <==> y in s)
  {
    if |s| > 0 && s[0] != x {
      RemoveOthers(s[1..], x);
    }
  }

  /** What the objects of one game owe each other: the systems are valid for the
      configuration, the player and weapons are wired together, and the lists are in order. */
  ghost predicate Coherent(cfg: Config, player: Player, spawner: ZombieSpawner, exp: ExperienceSystem,
                           menu: UpgradeMenu, gun: AutoGun, disc: OrbitingDisc, weapons: seq<Arm>,
                           zombies: seq<Zombie>, bullets: seq<Bullet>, gems: seq<ExpGem>, particles: seq<Particle>)
    reads player.animation, spawner, exp, menu, gun, gun.base, disc, disc.base
  {
    && Systems(cfg, spawner, exp)
    && Armed(cfg, player, menu, gun, disc, weapons)
    && Roster(zombies, bullets, gems, particles)
  }

  /** The configuration's assumptions hold and the spawner and the experience bar keep
      their own invariants for it. */
  ghost predicate Systems(cfg: Config, spawner: ZombieSpawner, exp: ExperienceSystem)
    reads spawner, exp
  {
    && cfg.Valid()
    && spawner.Valid() && spawner.cfg == cfg
    && spawner.screenWidth == cfg.width && spawner.screenHeight == cfg.height
    && exp.Valid()
  }

  /** The weapon list is the gun and the disc, both valid, on separate bases owned by the
      player; the player's sprite is valid; an open menu applies to this player and these
      weapons. */
  ghost predicate Armed(cfg: Config, player: Player, menu: UpgradeMenu, gun: AutoGun, disc: OrbitingDisc, weapons: seq<Arm>)
    reads player.animation, menu, gun, gun.base, disc, disc.base
  {
    && player.animation.Valid()
    && weapons == [Gun(gun), Disc(disc)]
    && gun.Valid() && disc.Valid() && gun.base != disc.base
    && gun.base.owner == player && disc.base.owner == player
    && menu.screenWidth == cfg.width && menu.screenHeight == cfg.height
    && (menu.active ==> menu.player == player && menu.weapons == weapons)
  }

  /** The entity lists have no repeats, and the particles are in a state their updates
      accept. */
  ghost predicate Roster(zombies: seq<Zombie>, bullets: seq<Bullet>, gems: seq<ExpGem>, particles: seq<Particle>) {
    && Distinct(zombies) && Distinct(bullets) && Distinct(gems) && Distinct(particles)
    && ParticlesValid(particles)
  }

  /** The sub-systems as `__init__` makes them: a full-health player in the middle of the
      screen, a spawner at time 0, an empty experience bar at level 1, a closed menu, and
      both weapons at level 1. */
  ghost predicate Pristine(cfg: Config, player: Player, spawner: ZombieSpawner, exp: ExperienceSystem,
                           menu: UpgradeMenu, gun: AutoGun, disc: OrbitingDisc)
    reads player, spawner, exp, menu, gun.base, disc.base
  {
    && player.rect == Centered((cfg.width / 2) as real, (cfg.height / 2) as real, cfg.playerSize, cfg.playerSize)
    && player.health == player.maxHealth == cfg.playerMaxHealth && player.alive
    && exp.State() == ExpState(1, 0.0, cfg.expToLevel, 0.0)
    && spawner.gameTime == 0.0 && spawner.spawnTimer == 0.0
    && !menu.active
    && gun.base.level == 1 && disc.base.level == 1
  }

  /** The game's weapon list as the menu sees it: its objects are the two weapons and their
      bases, it is valid when both weapons are, and separate when the bases differ. */
  lemma GameArms(gun: AutoGun, disc: OrbitingDisc)
    ensures Footprint([Gun(gun), Disc(disc)]) == {gun, gun.base, disc, disc.base}
    ensures ArmsValid([Gun(gun), Disc(disc)]) <==> gun.Valid() && disc.Valid()
    ensures Separate([Gun(gun), Disc(disc)]) <==> gun.base != disc.base
  {
    var w := [Gun(gun), Disc(disc)];
    assert ArmObjects(w[0]) == {gun, gun.base} && ArmObjects(w[1]) == {disc, disc.base};
  }

  /** A click on the open menu, seen from the game: the weapons stay valid, and the menu
      closes exactly when the click picks one of its cards. */
  method Click(menu: UpgradeMenu, player: Player, gun: AutoGun, disc: OrbitingDisc, x: int, y: int)
    returns (chosen: Option<Upgrade>)
    requires menu.active && menu.player == player && menu.weapons == [Gun(gun), Disc(disc)]
    requires gun.Valid() && disc.Valid() && gun.base != disc.base
    modifies menu`active, menu`selected, player, gun, gun.base, disc, disc.base
    ensures gun.Valid() && disc.Valid()
    ensures chosen.Some? <==> !menu.active
    ensures chosen.Some? ==> chosen.value in menu.options && menu.selected == chosen
  {
    GameArms(gun, disc);
    chosen := menu.HandleClick(x, y);
    GameArms(gun, disc);
  }

  /** The contact damages of one frame: in list order, the damage of each live zombie whose
      rectangle overlaps the player's. */
  function Contacts(box: Rect, zs: seq<Zombie>): (r: seq<int>)
    reads (set z | z in zs)`alive, (set z | z in zs)`rect, (set z | z in zs)`damage
    ensures |r| <= |zs|
    ensures forall d :: d in r ==> exists z :: z in zs && z.alive && Overlap(box, z.rect) && z.damage == d
  {
    if |zs| == 0 then []
    else
      var z := zs[|zs| - 1];
      Contacts(box, zs[..|zs| - 1]) + (if z.alive && Overlap(box, z.rect) then [z.damage] else [])
  }

  /** The player after a run of contact damages, and whether one of them was lethal. */
  function HitAll(v: PlayerVitals, damages: seq<int>): (PlayerVitals, bool) {
    if |damages| == 0 then (v, false)
    else
      var (w, died) := HitAll(v, damages[..|damages| - 1]);
      var (u, dies) := Hit(w, damages[|damages| - 1]);
      (u, died || dies)
  }

  lemma HitAllStep(v: PlayerVitals, damages: seq<int>, d: int)
    ensures HitAll(v, damages + [d]) == (Hit(HitAll(v, damages).0, d).0, HitAll(v, damages).1 || Hit(HitAll(v, damages).0, d).1)
  {
    assert (damages + [d])[..|damages|] == damages;
  }

  /** However many zombies touch the player in one frame, only the first contact can hurt:
      it starts the immunity window, which ignores the rest; and none hurts while the window
      is open. */
  lemma {:induction false} OnlyFirstContactHurts(v: PlayerVitals, damages: seq<int>)
    ensures HitAll(v, damages) == if |damages| == 0 || v.invulnerableTime > 0.0 then (v, false) else Hit(v, damages[0])
  {
    if |damages| > 1 {
      var init := damages[..|damages| - 1];
      OnlyFirstContactHurts(v, init);
      assert init[0] == damages[0];
    }
  }

  /** The boxes of the zombies of a list. */
  function Boxes(zs: seq<Zombie>): (r: seq<Rect>)
    reads (set z | z in zs)`rect
    ensures |r| == |zs| && forall j :: 0 <= j < |zs| ==> r[j] == zs[j].rect
  {
    if |zs| == 0 then [] else Boxes(zs[..|zs| - 1]) + [zs[|zs| - 1].rect]
  }

  /** Where one `update` toward (tx, ty) leaves each zombie of a list. */
  function Chases(zs: seq<Zombie>, tx: real, ty: real, dt: real, m: MathLib): (r: seq<Rect>)
    reads (set z | z in zs)`rect, (set z | z in zs)`alive, (set z | z in zs)`speed
    ensures |r| == |zs| && forall j :: 0 <= j < |zs| ==> r[j] == Chased(zs[j].rect, zs[j].alive, zs[j].speed, tx, ty, dt, m)
  {
    if |zs| == 0 then []
    else Chases(zs[..|zs| - 1], tx, ty, dt, m) + [Chased(zs[|zs| - 1].rect, zs[|zs| - 1].alive, zs[|zs| - 1].speed, tx, ty, dt, m)]
  }

  /** The collision check of the zombie loop of `update`, after the zombie has moved: if
      it is alive and overlaps the player's rectangle it tries to hurt the player. */
  method Touch(z: Zombie, player: Player, box: Rect) returns (touching: bool, died: bool)
    modifies player`health, player`alive, player`invulnerableTime
    ensures touching == (z.alive && Overlap(box, z.rect))
    ensures (player.Vitals(), died) == if touching then Hit(old(player.Vitals()), z.damage) else (old(player.Vitals()), false)
  {
    touching := z.alive && Overlap(box, z.rect);
    died := false;
    if touching {
      died := player.TakeDamage(z.damage);
    }
  }

  /** Midway through the zombie loop of `update`: the zombies before `i` stand where one
      step toward (`box`'s centre) took them from `rects`, the rest still stand at `rects`. */
  ghost predicate Moving(zombies: seq<Zombie>, i: nat, rects: seq<Rect>, goals: seq<Rect>, box: Rect, dt: real, m: MathLib)
    reads (set z | z in zombies)`rect, (set z | z in zombies)`alive, (set z | z in zombies)`speed
  {
    |rects| == |zombies| && |goals| == |zombies| &&
    forall j :: 0 <= j < |zombies| ==>
      zombies[j].rect == (if j < i then goals[j] else rects[j]) &&
      goals[j] == Chased(rects[j], zombies[j].alive, zombies[j].speed, box.CenterX(), box.CenterY(), dt, m)
  }

  /** The movement half of one turn of the zombie loop: zombie `i` steps toward `box`'s
      centre; no other zombie moves, so the contacts of those before it stay as they were. */
  method Approach(zombies: seq<Zombie>, i: nat, z: Zombie, box: Rect, dt: real, m: MathLib,
                 ghost ds: seq<int>, ghost rects: seq<Rect>, ghost goals: seq<Rect>)
    requires Distinct(zombies) && i < |zombies| && z == zombies[i]
    requires ds == Contacts(box, zombies[..i]) && Moving(zombies, i, rects, goals, box, dt, m)
    modifies z`rect, z`vx, z`vy
    ensures ds == Contacts(box, zombies[..i]) && Moving(zombies, i + 1, rects, goals, box, dt, m)
  {
    assert forall k :: 0 <= k < |zombies| && k != i ==> zombies[k] != z;
    z.Update(dt, box.CenterX(), box.CenterY(), m);
  }

  /** The collision half of one turn of the zombie loop: zombie `i`, already moved, may
      hurt the player, which extends the contacts of the zombies before it by its own. */
  method ZombieTurn(zombies: seq<Zombie>, i: nat, z: Zombie, player: Player, box: Rect,
                   ghost v0: PlayerVitals, ghost ds: seq<int>, lethal: bool)
    returns (lethal': bool, ghost ds': seq<int>)
    requires i < |zombies| && z == zombies[i] && player.rect == box
    requires ds == Contacts(box, zombies[..i]) && (player.Vitals(), lethal) == HitAll(v0, ds)
    modifies player`health, player`alive, player`invulnerableTime
    ensures player.rect == box
    ensures ds' == Contacts(box, zombies[..i + 1]) && (player.Vitals(), lethal') == HitAll(v0, ds')
  {
    var touching, died := Touch(z, player, box);
    assert Contacts(box, zombies[..i]) == ds;
    assert zombies[..i + 1][..i] == zombies[..i];
    assert Contacts(box, zombies[..i + 1]) == ds + if touching then [z.damage] else [];
    if touching {
      HitAllStep(v0, ds, z.damage);
      ds' := ds + [z.damage];
    } else {
      assert ds + [] == ds;
      ds' := ds;
    }
    lethal' := lethal || died;
  }

  /** The zombie loop of `update` over a list without repeats: each zombie moves toward the
      player's centre, and each live one that then overlaps the player tries to hurt it. */
  method UpdateZombies(zombies: seq<Zombie>, player: Player, dt: real, m: MathLib) returns (lethal: bool)
    requires Distinct(zombies)
    modifies (set o | o in zombies)`rect, (set o | o in zombies)`vx, (set o | o in zombies)`vy, player`health, player`alive, player`invulnerableTime
    ensures player.rect == old(player.rect)
    ensures forall j :: 0 <= j < |zombies| ==>
              zombies[j].rect == Chased(old(zombies[j].rect), zombies[j].alive, zombies[j].speed,
                                        player.rect.CenterX(), player.rect.CenterY(), dt, m)
    ensures (player.Vitals(), lethal) == HitAll(old(player.Vitals()), Contacts(player.rect, zombies))
  {
    var i := 0;
    lethal := false;
    var box := player.rect;
    ghost var v0 := player.Vitals();
    ghost var ds: seq<int> := [];
    ghost var rects := Boxes(zombies);
    ghost var goals := Chases(zombies, box.CenterX(), box.CenterY(), dt, m);
    while i < |zombies|
      invariant 0 <= i <= |zombies| && player.rect == box
      invariant ds == Contacts(box, zombies[..i])
      invariant (player.Vitals(), lethal) == HitAll(v0, ds)
      invariant Moving(zombies, i, rects, goals, box, dt, m)
    {
      Approach(zombies, i, zombies[i], box, dt, m, ds, rects, goals);
      lethal, ds := ZombieTurn(zombies, i, zombies[i], player, box, v0, ds, lethal);
      i := i + 1;
    }
    assert zombies[..i] == zombies;
  }

  /** The inner loop of the bullet step for a live bullet: it tries the zombies in list
      order and stops at the first it strikes, which takes the bullet's damage; when it
      strikes none, nothing changes. */
  method FirstCollision(b: Bullet, zs: seq<Zombie>, m: MathLib) returns (victim: Option<nat>)
    requires b.alive && Distinct(zs)
    modifies b`pierceCount, b`alive, (set o | o in zs)`health, (set o | o in zs)`alive
    ensures victim.None? ==>
              && b.State() == old(b.State())
              && forall j :: 0 <= j < |zs| ==> !(old(zs[j].alive) && CircleHits(m, b.x, b.y, b.radius, zs[j].rect))
    ensures victim.Some? ==>
              && victim.value < |zs|
              && old(zs[victim.value].alive) && CircleHits(m, b.x, b.y, b.radius, zs[victim.value].rect)
              && (forall j :: 0 <= j < victim.value ==> !(old(zs[j].alive) && CircleHits(m, b.x, b.y, b.radius, zs[j].rect)))
              && zs[victim.value].Vital() == Hurt(old(zs[victim.value].Vital()), b.damage).0
              && b.State() == Strike(old(b.State()), true, true).0
    ensures forall j :: 0 <= j < |zs| && victim != Some(j) ==> zs[j].Vital() == old(zs[j].Vital())
  {
    var i := 0;
    while i < |zs|
      invariant 0 <= i <= |zs|
      invariant b.State() == old(b.State())
      invariant forall j :: 0 <= j < i ==> !(old(zs[j].alive) && CircleHits(m, b.x, b.y, b.radius, zs[j].rect))
      invariant forall j :: 0 <= j < |zs| ==> zs[j].Vital() == old(zs[j].Vital())
    {
      var z := zs[i];
      var hit := b.CheckCollision(z, m);
      if hit {
        assert forall j :: 0 <= j < |zs| && j != i ==> zs[j] != z;
        return Some(i);
      }
      i := i + 1;
    }
    return None;
  }

  /** What a zombie killed by a bullet leaves behind: a gem worth its experience value at
      its centre in the gem colour, and a burst of death particles there in its colour. */
  method Remains(z: Zombie, gemColor: Color, draws: seq<DeathDraw>, m: MathLib) returns (gem: ExpGem, sparks: seq<Particle>)
    requires |draws| >= DeathBurst && forall i :: 0 <= i < DeathBurst ==> DeathDrawInRange(draws[i], m.pi)
    ensures fresh(gem) && gem.x == z.rect.CenterX() && gem.y == z.rect.CenterY()
    ensures gem.value == z.expValue && gem.color == gemColor
    ensures |sparks| == DeathBurst && Distinct(sparks) && ParticlesValid(sparks)
    ensures forall j :: 0 <= j < |sparks| ==>
              && sparks[j].Burst? && fresh(sparks[j].death) && sparks[j].death.life == 1.0
              && sparks[j].death.x == z.rect.CenterX() && sparks[j].death.y == z.rect.CenterY()
              && sparks[j].death.color == z.color
  {
    gem := new ExpGem(z.rect.CenterX(), z.rect.CenterY(), z.expValue, gemColor);
    var burst := CreateDeathParticles(z.rect.CenterX(), z.rect.CenterY(), z.color, DeathBurst, draws, m);
    sparks := Bursts(burst);
  }

  /** Death particles as particles of the game's list. */
  function Bursts(ps: seq<DeathParticle>): (r: seq<Particle>)
    ensures |r| == |ps| && forall j :: 0 <= j < |ps| ==> r[j] == Burst(ps[j])
    ensures Distinct(ps) ==> Distinct(r)
  {
    seq(|ps|, j requires 0 <= j < |ps| => Burst(ps[j]))
  }

  /** Enough death-particle draws for `count` kills, each within the ranges of the random
      module. */
  predicate BurstsInRange(bursts: seq<seq<DeathDraw>>, count: int, pi: real) {
    && |bursts| >= count
    && forall n :: 0 <= n < count ==>
         |bursts[n]| >= DeathBurst && forall i :: 0 <= i < DeathBurst ==> DeathDrawInRange(bursts[n][i], pi)
  }

  /** Where each bullet of a list stands and whether it is alive. */
  function Places(bs: seq<Bullet>): (r: seq<(real, real, bool)>)
    reads (set b | b in bs)`x, (set b | b in bs)`y, (set b | b in bs)`alive
    ensures |r| == |bs| && forall j :: 0 <= j < |bs| ==> r[j] == (bs[j].x, bs[j].y, bs[j].alive)
  {
    if |bs| == 0 then [] else Places(bs[..|bs| - 1]) + [(bs[|bs| - 1].x, bs[|bs| - 1].y, bs[|bs| - 1].alive)]
  }

  /** Whether each zombie of a list is alive. */
  function Lives(zs: seq<Zombie>): (r: seq<bool>)
    reads (set z | z in zs)`alive
    ensures |r| == |zs| && forall j :: 0 <= j < |zs| ==> r[j] == zs[j].alive
  {
    if |zs| == 0 then [] else Lives(zs[..|zs| - 1]) + [zs[|zs| - 1].alive]
  }

  /** The gem a zombie killed by a bullet drops: at its centre, worth its experience value,
      in the gem colour. */
  ghost predicate GemOf(g: ExpGem, z: Zombie, gemColor: Color)
    reads g`x, g`y, z`rect, z`expValue
  {
    g.x == z.rect.CenterX() && g.y == z.rect.CenterY() && g.value == z.expValue && g.color == gemColor
  }

  /** The death particles a zombie killed by a bullet leaves: new ones at its centre in its
      colour. */
  ghost predicate BurstOf(ps: seq<Particle>, z: Zombie)
    reads z`color, z`rect, Deaths(ps)`life, Deaths(ps)`x, Deaths(ps)`y
  {
    forall j :: 0 <= j < |ps| ==>
      && ps[j].Burst? && ps[j].death.life == 1.0 && ps[j].death.color == z.color
      && ps[j].death.x == z.rect.CenterX() && ps[j].death.y == z.rect.CenterY()
  }

  /** Whether the strike of a bullet's turn, on the zombie at index `victim` if any,
      killed it. */
  predicate Slain(zs: seq<Zombie>, victim: Option<nat>)
    reads (set z | z in zs)`alive
  {
    victim.Some? && victim.value < |zs| && !zs[victim.value].alive
  }

  /** Midway through the bullet loop: the bullets before `i` have moved from where they
      stood at the start (`places`) to where they stand now (`now`), and are still listed
      in `bs` iff they were alive and are on screen; the others have not moved, still listed. */
  ghost predicate Flown(todo: seq<Bullet>, i: nat, places: seq<(real, real, bool)>, now: seq<(real, real, bool)>,
                        bs: seq<Bullet>, w: int, h: int, dt: real) {
    && i <= |todo| && |places| == |todo| && |now| == |todo|
    && Distinct(bs) && (forall j :: 0 <= j < |bs| ==> bs[j] in todo)
    && forall j :: 0 <= j < |todo| ==>
         if j < i then
           && now[j].0 == Travel(places[j].0, todo[j].vx, dt) && now[j].1 == Travel(places[j].1, todo[j].vy, dt)
           && (todo[j] in bs <==> places[j].2 && !Offscreen(now[j].0, now[j].1, w, h))
           && (now[j].2 ==> places[j].2)
         else todo[j] in bs && now[j] == places[j]
  }

  /** A bullet's turn keeps `Flown`: only bullet `i` moves, and it leaves the list unless it
      is still flying. */
  lemma FlownStep(todo: seq<Bullet>, i: nat, places: seq<(real, real, bool)>, before: seq<(real, real, bool)>,
                  after: seq<(real, real, bool)>, bs: seq<Bullet>, w: int, h: int, dt: real, flying: bool)
    requires Distinct(todo) && i < |todo| && Flown(todo, i, places, before, bs, w, h, dt) && |after| == |todo|
    requires forall k :: 0 <= k < |todo| && k != i ==> after[k] == before[k]
    requires after[i].0 == Travel(before[i].0, todo[i].vx, dt) && after[i].1 == Travel(before[i].1, todo[i].vy, dt)
    requires flying == (before[i].2 && !Offscreen(after[i].0, after[i].1, w, h))
    requires after[i].2 ==> before[i].2
    ensures Flown(todo, i + 1, places, after, if flying then bs else Remove(bs, todo[i]), w, h, dt)
  {
    var b := todo[i];
    var bs' := if flying then bs else Remove(bs, b);
    RemoveOthers(bs, b);
    forall j | 0 <= j < |bs'| ensures bs'[j] in todo {
      assert bs'[j] in bs;
    }
    forall j | 0 <= j < |todo|
      ensures if j < i + 1 then
                && after[j].0 == Travel(places[j].0, todo[j].vx, dt) && after[j].1 == Travel(places[j].1, todo[j].vy, dt)
                && (todo[j] in bs' <==> places[j].2 && !Offscreen(after[j].0, after[j].1, w, h))
                && (after[j].2 ==> places[j].2)
              else todo[j] in bs' && after[j] == places[j]
    {
      if j != i {
        assert todo[j] != b && (todo[j] in bs' <==> todo[j] in bs);
      }
    }
  }

  /** Midway through the bullet loop: `zs` lists the zombies of `zombies` except those that
      were alive at the start (`lives`) and are dead now (`now`); a zombie still listed is as
      alive as it was at the start. */
  ghost predicate Culled(zombies: seq<Zombie>, lives: seq<bool>, now: seq<bool>, zs: seq<Zombie>) {
    && |lives| == |zombies| && |now| == |zombies| && Distinct(zs)
    && (forall j :: 0 <= j < |zs| ==> zs[j] in zombies)
    && forall j :: 0 <= j < |zombies| ==>
         if zombies[j] in zs then now[j] == lives[j] else lives[j] && !now[j]
  }

  /** A bullet's turn keeps `Culled`: only its victim, alive before, may change, and it
      leaves the list when it dies. */
  lemma CulledStep(zombies: seq<Zombie>, lives: seq<bool>, before: seq<bool>, after: seq<bool>,
                   zs: seq<Zombie>, victim: Option<nat>, slain: bool)
    requires Culled(zombies, lives, before, zs) && |after| == |zombies|
    requires victim.Some? ==> victim.value < |zs|
    requires slain ==> victim.Some?
    requires forall k :: 0 <= k < |zombies| && (victim.None? || zombies[k] != zs[victim.value]) ==> after[k] == before[k]
    requires forall k :: 0 <= k < |zombies| && victim.Some? && zombies[k] == zs[victim.value] ==> before[k] && after[k] == !slain
    ensures slain ==> Culled(zombies, lives, after, Remove(zs, zs[victim.value]))
    ensures !slain ==> Culled(zombies, lives, after, zs)
  {
    if slain {
      var z := zs[victim.value];
      RemoveOthers(zs, z);
      var zs' := Remove(zs, z);
      assert Distinct(zs') && z !in zs';
      forall j | 0 <= j < |zs'| ensures zs'[j] in zombies {
        assert zs'[j] in zs;
      }
      forall j | 0 <= j < |zombies|
        ensures if zombies[j] in zs' then after[j] == lives[j] else lives[j] && !after[j]
      {
        if zombies[j] == z {
          assert zombies[j] in zs;
        }
      }
    } else {
      forall k | 0 <= k < |zombies| ensures after[k] == before[k] { }
      assert after == before;
    }
  }

  /** The bullet loop of `update` over the bullets of the frame: each bullet moves; one
      that dies doing so (it was dead or is now off screen) leaves the list; a live one
      strikes at most the first zombie it touches (`Fly`). Exactly the zombies alive before
      and dead after leave the list, each counted as a kill and leaving a gem and a burst
      of death particles. */
  method UpdateBullets(todo: seq<Bullet>, zombies: seq<Zombie>, gemColor: Color, w: int, h: int, dt: real, m: MathLib,
               bursts: seq<seq<DeathDraw>>)
    returns (bs: seq<Bullet>, zs: seq<Zombie>, found: seq<ExpGem>, burst: seq<Particle>, killed: nat)
    requires Distinct(todo) && Distinct(zombies) && BurstsInRange(bursts, |todo|, m.pi)
    modifies (set o | o in todo)`x, (set o | o in todo)`y, (set o | o in todo)`alive, (set o | o in todo)`pierceCount, (set o | o in zombies)`health, (set o | o in zombies)`alive
    ensures forall j :: 0 <= j < |todo| ==>
              var b := todo[j];
              && b.x == Travel(old(b.x), b.vx, dt) && b.y == Travel(old(b.y), b.vy, dt)
              && (b in bs <==> old(b.alive) && !Offscreen(b.x, b.y, w, h))
              && (b.alive ==> old(b.alive))
    ensures Distinct(bs) && forall x :: x in bs ==> x in todo
    ensures Distinct(zs) && forall z :: z in zs ==> z in zombies
    ensures forall j :: 0 <= j < |zombies| ==> (zombies[j] !in zs <==> old(zombies[j].alive) && !zombies[j].alive)
    ensures forall j :: 0 <= j < |zombies| && zombies[j] in zs ==> zombies[j].alive == old(zombies[j].alive)
    ensures killed == |zombies| - |zs| && killed <= |todo|
    ensures |found| == killed && Distinct(found) && forall j :: 0 <= j < |found| ==> fresh(found[j])
    ensures |burst| == DeathBurst * killed && Distinct(burst) && ParticlesValid(burst)
    ensures forall j :: 0 <= j < |burst| ==> burst[j].Burst? && fresh(burst[j].death)
  {
    bs, zs, found, burst, killed := todo, zombies, [], [], 0;
    ghost var places, now := Places(todo), Places(todo);
    ghost var lives, alive := Lives(zombies), Lives(zombies);
    var i := 0;
    while i < |todo|
      invariant 0 <= i <= |todo| && killed <= i
      invariant now == Places(todo) && Flown(todo, i, places, now, bs, w, h, dt)
      invariant alive == Lives(zombies) && Culled(zombies, lives, alive, zs) && killed == |zombies| - |zs|
      invariant |found| == killed && Distinct(found) && forall j :: 0 <= j < |found| ==> fresh(found[j])
      invariant |burst| == DeathBurst * killed && Distinct(burst) && ParticlesValid(burst)
      invariant forall j :: 0 <= j < |burst| ==> burst[j].Burst? && fresh(burst[j].death)
    {
      var gem, sparks;
      bs, zs, gem, sparks, now, alive := BulletTurn(todo, i, todo[i], zombies, bs, zs, gemColor, w, h, dt, m, bursts[killed],
                                              places, now, lives, alive);
      AppendFresh(found, gem);
      AppendFresh(burst, sparks);
      forall j | 0 <= j < |found + gem| ensures fresh((found + gem)[j]) {
        if j >= |found| {
          assert (found + gem)[j] == gem[j - |found|];
        }
      }
      forall j | 0 <= j < |burst + sparks|
        ensures ParticleValid((burst + sparks)[j]) && (burst + sparks)[j].Burst? && fresh((burst + sparks)[j].death)
      {
        if j >= |burst| {
          assert (burst + sparks)[j] == sparks[j - |burst|];
        }
      }
      found, burst, killed := found + gem, burst + sparks, killed + |gem|;
      i := i + 1;
    }
    forall j | 0 <= j < |todo|
      ensures todo[j].x == Travel(old(todo[j].x), todo[j].vx, dt) && todo[j].y == Travel(old(todo[j].y), todo[j].vy, dt)
      ensures todo[j].alive ==> old(todo[j].alive)
    {
      assert places[j] == (old(todo[j].x), old(todo[j].y), old(todo[j].alive));
    }
  }

  /** One bullet's turn in the bullet loop, on the snapshots `Flown` and `Culled` keep:
      bullet `i` moves and leaves the list unless it flies on, and the zombie it kills, if
      any, leaves the list with its gem and death particles. */
  method BulletTurn(todo: seq<Bullet>, i: nat, b: Bullet, zombies: seq<Zombie>, bs: seq<Bullet>, zs: seq<Zombie>,
              gemColor: Color, w: int, h: int, dt: real, m: MathLib, draws: seq<DeathDraw>,
              ghost places: seq<(real, real, bool)>, ghost now: seq<(real, real, bool)>,
              ghost lives: seq<bool>, ghost alive: seq<bool>)
    returns (bs': seq<Bullet>, zs': seq<Zombie>, gem: seq<ExpGem>, sparks: seq<Particle>,
             ghost now': seq<(real, real, bool)>, ghost alive': seq<bool>)
    requires Distinct(todo) && i < |todo| && b == todo[i]
    requires now == Places(todo) && Flown(todo, i, places, now, bs, w, h, dt)
    requires alive == Lives(zombies) && Culled(zombies, lives, alive, zs)
    requires |draws| >= DeathBurst && forall k :: 0 <= k < DeathBurst ==> DeathDrawInRange(draws[k], m.pi)
    modifies b`x, b`y, b`alive, b`pierceCount, (set o | o in zombies)`health, (set o | o in zombies)`alive
    ensures now' == Places(todo) && Flown(todo, i + 1, places, now', bs', w, h, dt)
    ensures alive' == Lives(zombies) && Culled(zombies, lives, alive', zs')
    ensures |gem| == |zs| - |zs'| <= 1 && Distinct(gem) && forall j :: 0 <= j < |gem| ==> fresh(gem[j])
    ensures |sparks| == DeathBurst * |gem| && Distinct(sparks) && ParticlesValid(sparks)
    ensures forall j :: 0 <= j < |sparks| ==> sparks[j].Burst? && fresh(sparks[j].death)
  {
    assert forall k :: 0 <= k < |todo| && k != i ==> todo[k] != b;
    var flying, victim;
    ghost var slain: bool;
    flying, victim, zs', gem, sparks, alive', slain := Sortie(b, zombies, zs, gemColor, w, h, dt, m, draws, alive);
    now' := Places(todo);
    FlownStep(todo, i, places, now, now', bs, w, h, dt, flying);
    CulledStep(zombies, lives, alive, alive', zs, victim, slain);
    bs' := if flying then bs else Remove(bs, b);
  }

  /** `Fly`, with what it does to the zombies restated on snapshots of their liveness. */
  method Sortie(b: Bullet, zombies: seq<Zombie>, zs: seq<Zombie>, gemColor: Color,
                w: int, h: int, dt: real, m: MathLib, draws: seq<DeathDraw>, ghost before: seq<bool>)
    returns (flying: bool, victim: Option<nat>, rest: seq<Zombie>, gem: seq<ExpGem>, sparks: seq<Particle>,
             ghost after: seq<bool>, ghost slain: bool)
    requires Distinct(zs) && (forall j :: 0 <= j < |zs| ==> zs[j] in zombies) && before == Lives(zombies)
    requires |draws| >= DeathBurst && forall i :: 0 <= i < DeathBurst ==> DeathDrawInRange(draws[i], m.pi)
    modifies b`x, b`y, b`alive, b`pierceCount, (set o | o in zombies)`health, (set o | o in zombies)`alive
    ensures b.x == Travel(old(b.x), b.vx, dt) && b.y == Travel(old(b.y), b.vy, dt)
    ensures flying == (old(b.alive) && !Offscreen(b.x, b.y, w, h))
    ensures b.alive ==> old(b.alive)
    ensures after == Lives(zombies) && |after| == |zombies|
    ensures victim.Some? ==> victim.value < |zs|
    ensures slain == Slain(zs, victim) && (slain ==> victim.Some?)
    ensures forall k :: 0 <= k < |zombies| && (victim.None? || zombies[k] != zs[victim.value]) ==> after[k] == before[k]
    ensures forall k :: 0 <= k < |zombies| && victim.Some? && zombies[k] == zs[victim.value] ==> before[k] && after[k] == !slain
    ensures rest == if slain then Remove(zs, zs[victim.value]) else zs
    ensures |gem| == (if slain then 1 else 0) && Distinct(gem) && forall j :: 0 <= j < |gem| ==> fresh(gem[j])
    ensures |sparks| == DeathBurst * |gem| && Distinct(sparks) && ParticlesValid(sparks)
    ensures forall j :: 0 <= j < |sparks| ==> sparks[j].Burst? && fresh(sparks[j].death)
  {
    flying, victim, rest, gem, sparks := Fly(b, zs, gemColor, w, h, dt, m, draws);
    after, slain := Lives(zombies), Slain(zs, victim);
  }

  /** One bullet's turn in the bullet loop of `update`: it moves and, if it is still alive,
      strikes the first zombie it touches (`FirstCollision`), if any; when that strike kills the
      zombie, the zombie leaves the list and its remains (`Remains`) are returned. */
  method Fly(b: Bullet, zs: seq<Zombie>, gemColor: Color, w: int, h: int, dt: real, m: MathLib, draws: seq<DeathDraw>)
    returns (flying: bool, victim: Option<nat>, rest: seq<Zombie>, gem: seq<ExpGem>, sparks: seq<Particle>)
    requires Distinct(zs)
    requires |draws| >= DeathBurst && forall i :: 0 <= i < DeathBurst ==> DeathDrawInRange(draws[i], m.pi)
    modifies b`x, b`y, b`alive, b`pierceCount, (set z | z in zs)`health, (set z | z in zs)`alive
    ensures b.x == Travel(old(b.x), b.vx, dt) && b.y == Travel(old(b.y), b.vy, dt)
    ensures flying == (old(b.alive) && !Offscreen(b.x, b.y, w, h))
    ensures victim.None? ==> b.alive == flying && b.pierceCount == old(b.pierceCount)
    ensures victim.None? && flying ==>
              forall j :: 0 <= j < |zs| ==> !(old(zs[j].alive) && CircleHits(m, b.x, b.y, b.radius, zs[j].rect))
    ensures victim.Some? ==>
              && flying && victim.value < |zs|
              && old(zs[victim.value].alive) && CircleHits(m, b.x, b.y, b.radius, zs[victim.value].rect)
              && (forall j :: 0 <= j < victim.value ==> !(old(zs[j].alive) && CircleHits(m, b.x, b.y, b.radius, zs[j].rect)))
              && zs[victim.value].Vital() == Hurt(old(zs[victim.value].Vital()), b.damage).0
              && b.State() == Strike(Shot(true, old(b.pierceCount)), true, true).0
    ensures forall j :: 0 <= j < |zs| && victim != Some(j) ==> zs[j].Vital() == old(zs[j].Vital())
    ensures rest == if Slain(zs, victim) then Remove(zs, zs[victim.value]) else zs
    ensures Slain(zs, victim) ==>
              && |gem| == 1 && fresh(gem[0]) && GemOf(gem[0], zs[victim.value], gemColor)
              && |sparks| == DeathBurst && BurstOf(sparks, zs[victim.value])
    ensures !Slain(zs, victim) ==> gem == [] && sparks == []
    ensures Distinct(sparks) && ParticlesValid(sparks) && forall j :: 0 <= j < |sparks| ==> sparks[j].Burst? && fresh(sparks[j].death)
  {
    flying := b.Update(dt, w, h);
    victim, rest, gem, sparks := None, zs, [], [];
    if flying {
      victim := FirstCollision(b, zs, m);
      if victim.Some? && !zs[victim.value].alive {
        var z := zs[victim.value];
        var g;
        g, sparks := Remains(z, gemColor, draws, m);
        gem := [g];
        rest := Remove(zs, z);
      }
    }
  }

  /** The draws of `random.sample(available, 3)` fit a list of n upgrades: three distinct
      positions in it when it has more than three entries. */
  predicate PickFits(picks: seq<int>, n: int) {
    n > 3 ==> |picks| == 3 && Distinct(picks) && forall k :: 0 <= k < 3 ==> 0 <= picks[k] < n
  }

  /** Enough such draws for `count` level-ups. */
  predicate PicksFit(picks: seq<seq<int>>, count: int, n: int) {
    |picks| >= count && forall i :: 0 <= i < count ==> PickFits(picks[i], n)
  }

  /** The random draws of one frame of `update`: the void-particle roll, offset and draw,
      the spawn draw, the k-th killed zombie's i-th death-particle draw, and the k-th
      level-up's `random.sample` positions among n offers. */
  datatype Dice = Dice(roll: real, offset: (int, int), voidDraw: VoidDraw, spawn: SpawnDraw,
                       burst: (int, int) -> DeathDraw, sample: (int, int) -> seq<int>)

  /** Every draw is one the random module can produce. */
  ghost predicate DiceValid(d: Dice, pi: real) {
    && -VoidSpread <= d.offset.0 <= VoidSpread && -VoidSpread <= d.offset.1 <= VoidSpread
    && VoidDrawInRange(d.voidDraw)
    && (forall k, i :: DeathDrawInRange(d.burst(k, i), pi))
    && (forall k, n :: PickFits(d.sample(k, n), n))
  }

  /** The death-particle draws for `count` kills. */
  function BurstDraws(d: Dice, count: nat): (r: seq<seq<DeathDraw>>)
    ensures |r| == count && forall k :: 0 <= k < count ==> |r[k]| == DeathBurst
    ensures forall k, i :: 0 <= k < count && 0 <= i < DeathBurst ==> r[k][i] == d.burst(k, i)
  {
    seq(count, k => seq(DeathBurst, i => d.burst(k, i)))
  }

  /** The sample draws for `count` level-ups among n offers. */
  function SampleDraws(d: Dice, count: nat, n: int): (r: seq<seq<int>>)
    ensures |r| == count && forall k :: 0 <= k < count ==> r[k] == d.sample(k, n)
  {
    seq(count, k => d.sample(k, n))
  }

  /** Draws from valid dice are in the ranges the bullet and gem steps expect. */
  lemma DrawsFit(d: Dice, pi: real, count: nat, picks: nat, n: int)
    requires DiceValid(d, pi)
    ensures BurstsInRange(BurstDraws(d, count), count, pi)
    ensures PicksFit(SampleDraws(d, picks, n), picks, n)
  {
  }

  /** The upgrades offered to this player with these weapons. */
  function Offers(player: Player, weapons: seq<Arm>): seq<Upgrade>
    reads player
  {
    Available(Catalog(), player.health, player.maxHealth, Classes(weapons))
  }

  /** Whether a gem stands within the collection distance of a point. */
  predicate Near(g: ExpGem, px: real, py: real, m: MathLib)
    reads g`x, g`y
  {
    NearAt(g.x, g.y, px, py, m)
  }

  /** Whether (x, y) lies within the collection distance of (px, py). */
  predicate NearAt(x: real, y: real, px: real, py: real, m: MathLib) {
    m.hypot(px - x, py - y) < CollectRadius
  }

  /** The values of the gems within the collection distance of a point, in list order. */
  function Pickups(gs: seq<ExpGem>, px: real, py: real, m: MathLib): (r: seq<real>)
    reads (set g | g in gs)`x, (set g | g in gs)`y
    ensures |r| <= |gs|
  {
    if |gs| == 0 then []
    else
      var g := gs[|gs| - 1];
      Pickups(gs[..|gs| - 1], px, py, m) + (if Near(g, px, py, m) then [g.value] else [])
  }

  /** Where a gem stands and what it is worth. */
  datatype Spot = Spot(x: real, y: real, value: real)

  /** The spots of the gems of a list. */
  function Spots(gs: seq<ExpGem>): (r: seq<Spot>)
    reads (set g | g in gs)`x, (set g | g in gs)`y
    ensures |r| == |gs| && forall j :: 0 <= j < |gs| ==> r[j] == Spot(gs[j].x, gs[j].y, gs[j].value)
  {
    if |gs| == 0 then [] else Spots(gs[..|gs| - 1]) + [Spot(gs[|gs| - 1].x, gs[|gs| - 1].y, gs[|gs| - 1].value)]
  }

  /** The values of the first n spots within the collection distance of (px, py), in order. */
  function Collected(spots: seq<Spot>, n: nat, px: real, py: real, m: MathLib): seq<real>
    requires n <= |spots|
  {
    if n == 0 then []
    else
      var s := spots[n - 1];
      Collected(spots, n - 1, px, py, m) + (if NearAt(s.x, s.y, px, py, m) then [s.value] else [])
  }

  /** The values collected from the first n gems are those of the near spots. */
  lemma {:induction false} PickupsCollected(gs: seq<ExpGem>, px: real, py: real, m: MathLib, n: nat)
    requires n <= |gs|
    ensures Pickups(gs[..n], px, py, m) == Collected(Spots(gs), n, px, py, m)
  {
    if n > 0 {
      PickupsCollected(gs, px, py, m, n - 1);
      assert gs[..n][..n - 1] == gs[..n - 1];
    }
  }

  /** Banking one collected gem: its value goes to the experience bar, and a level-up
      (`on_level_up`) opens the menu on a sample of the upgrades the player can take. */
  method Bank(exp: ExperienceSystem, menu: UpgradeMenu, player: Player, weapons: seq<Arm>, value: real, picks: seq<int>)
    returns (leveled: bool)
    requires exp.Valid() && PickFits(picks, |Offers(player, weapons)|)
    modifies exp`level, exp`currentExp, exp`expToNextLevel, exp`totalExp
    modifies menu`active, menu`selected, menu`options, menu`player, menu`weapons
    ensures exp.Valid() && (exp.State(), leveled) == AfterAddExp(old(exp.State()), value, exp.growth)
    ensures leveled ==> && menu.active && menu.selected == None && menu.player == player && menu.weapons == weapons
                        && menu.options == Sample(Offers(player, weapons), picks)
    ensures !leveled ==> unchanged(menu)
  {
    leveled := exp.AddExp(value);
    if leveled {
      var available := GetAvailableUpgrades(player, weapons);
      menu.Show(player, weapons, available, picks);
    }
  }

  /** The movement half of the gem loop of `update`: each gem moves toward (px, py), and
      the ones that stood within the collection distance leave the list; `vals` are their
      values in list order. */
  method Sweep(todo: seq<ExpGem>, ghost spots: seq<Spot>, px: real, py: real, radius: real, dt: real, m: MathLib)
    returns (gs: seq<ExpGem>, vals: seq<real>)
    requires Distinct(todo)
    requires |spots| == |todo| && forall j :: 0 <= j < |todo| ==> spots[j] == Spot(todo[j].x, todo[j].y, todo[j].value)
    modifies (set g | g in todo)`pulse, (set g | g in todo)`attracted, (set g | g in todo)`vx
    modifies (set g | g in todo)`vy, (set g | g in todo)`x, (set g | g in todo)`y
    ensures Distinct(gs) && (forall g :: g in gs ==> g in todo)
    ensures forall j :: 0 <= j < |todo| ==> (todo[j] in gs <==> !NearAt(spots[j].x, spots[j].y, px, py, m))
    ensures vals == Collected(spots, |spots|, px, py, m) && |vals| <= |todo|
  {
    gs, vals := todo, [];
    var i := 0;
    while i < |todo|
      invariant 0 <= i <= |todo| && |vals| <= i
      invariant Distinct(gs) && (forall g :: g in gs ==> g in todo)
      invariant forall j :: 0 <= j < i ==> (todo[j] in gs <==> !NearAt(spots[j].x, spots[j].y, px, py, m))
      invariant forall j :: i <= j < |todo| ==> todo[j] in gs && todo[j].x == spots[j].x && todo[j].y == spots[j].y
      invariant vals == Collected(spots, i, px, py, m)
    {
      gs, vals := SweepStep(todo, spots, px, py, radius, dt, m, i, todo[i], gs, vals);
      i := i + 1;
    }
  }

  /** One turn of `Sweep`: gem `i` moves, and leaves the list with its value banked when it
      stood within the collection distance. */
  method SweepStep(todo: seq<ExpGem>, ghost spots: seq<Spot>, px: real, py: real, radius: real, dt: real,
                   m: MathLib, i: nat, g: ExpGem, gs: seq<ExpGem>, vals: seq<real>)
    returns (gs': seq<ExpGem>, vals': seq<real>)
    requires Distinct(todo) && |spots| == |todo| && i < |todo| && g == todo[i]
    requires forall j :: 0 <= j < |todo| ==> spots[j].value == todo[j].value
    requires Distinct(gs) && (forall h :: h in gs ==> h in todo)
    requires forall j :: 0 <= j < i ==> (todo[j] in gs <==> !NearAt(spots[j].x, spots[j].y, px, py, m))
    requires forall j :: i <= j < |todo| ==> todo[j] in gs && todo[j].x == spots[j].x && todo[j].y == spots[j].y
    requires vals == Collected(spots, i, px, py, m) && |vals| <= i
    modifies g`pulse, g`attracted, g`vx, g`vy, g`x, g`y
    ensures Distinct(gs') && (forall h :: h in gs' ==> h in todo)
    ensures forall j :: 0 <= j < i + 1 ==> (todo[j] in gs' <==> !NearAt(spots[j].x, spots[j].y, px, py, m))
    ensures forall j :: i + 1 <= j < |todo| ==> todo[j] in gs' && todo[j].x == spots[j].x && todo[j].y == spots[j].y
    ensures vals' == Collected(spots, i + 1, px, py, m) && |vals'| <= i + 1
  {
    assert forall j :: 0 <= j < |todo| && j != i ==> todo[j] != g;
    var collected := g.Update(dt, px, py, radius, m);
    if collected {
      RemoveOthers(gs, g);
      gs', vals' := Remove(gs, g), vals + [g.value];
    } else {
      gs', vals' := gs, vals;
      assert vals + [] == vals;
    }
  }

  /** The banking half of the gem loop: each value goes to the experience bar in order
      (`Bank`); `ups` counts the level-ups, each of which opens the menu for this player. */
  method BankAll(vals: seq<real>, exp: ExperienceSystem, menu: UpgradeMenu, player: Player, weapons: seq<Arm>,
                 picks: seq<seq<int>>)
    returns (ups: nat)
    requires exp.Valid() && PicksFit(picks, |vals|, |Offers(player, weapons)|)
    requires menu.active ==> menu.player == player && menu.weapons == weapons
    modifies exp`level, exp`currentExp, exp`expToNextLevel, exp`totalExp
    modifies menu`active, menu`selected, menu`options, menu`player, menu`weapons
    ensures exp.Valid() && (exp.State(), ups) == AfterAll(old(exp.State()), vals, exp.growth)
    ensures ups > 0 ==> menu.active && menu.selected == None
    ensures ups == 0 ==> menu.active == old(menu.active)
    ensures menu.active ==> menu.player == player && menu.weapons == weapons
  {
    ups := 0;
    ghost var s0 := exp.State();
    var i := 0;
    while i < |vals|
      invariant 0 <= i <= |vals| && ups <= i
      invariant exp.Valid() && (exp.State(), ups) == AfterAll(s0, vals[..i], exp.growth)
      invariant ups > 0 ==> menu.active && menu.selected == None
      invariant ups == 0 ==> menu.active == old(menu.active)
      invariant menu.active ==> menu.player == player && menu.weapons == weapons
    {
      ups := BankNext(vals, i, s0, old(menu.active), ups, exp, menu, player, weapons, picks);
      i := i + 1;
    }
    assert vals[..i] == vals;
  }

  /** One turn of `BankAll`: value `i` goes to the experience bar. */
  method BankNext(vals: seq<real>, i: nat, ghost s0: ExpState, ghost active0: bool, ups: nat,
                  exp: ExperienceSystem, menu: UpgradeMenu,
                  player: Player, weapons: seq<Arm>, picks: seq<seq<int>>)
    returns (ups': nat)
    requires i < |vals| && ups <= i && PicksFit(picks, |vals|, |Offers(player, weapons)|)
    requires exp.Valid() && (exp.State(), ups) == AfterAll(s0, vals[..i], exp.growth)
    requires menu.active ==> menu.player == player && menu.weapons == weapons
    requires ups > 0 ==> menu.active && menu.selected == None
    requires ups == 0 ==> menu.active == active0
    modifies exp`level, exp`currentExp, exp`expToNextLevel, exp`totalExp
    modifies menu`active, menu`selected, menu`options, menu`player, menu`weapons
    ensures ups' <= i + 1
    ensures exp.Valid() && (exp.State(), ups') == AfterAll(s0, vals[..i + 1], exp.growth)
    ensures ups' > 0 ==> menu.active && menu.selected == None
    ensures ups' == 0 ==> menu.active == active0
    ensures menu.active ==> menu.player == player && menu.weapons == weapons
  {
    assert vals[..i + 1] == vals[..i] + [vals[i]];
    AfterAllStep(s0, vals[..i], vals[i], exp.growth);
    var leveled := Bank(exp, menu, player, weapons, vals[i], picks[ups]);
    ups' := ups + if leveled then 1 else 0;
  }

  class Game {
    const cfg: Config
    const palette: Palette
    var running: bool
    var paused: bool
    var gameOver: bool
    var player: Player
    var spawner: ZombieSpawner
    var exp: ExperienceSystem
    var menu: UpgradeMenu
    var zombies: seq<Zombie>
    var bullets: seq<Bullet>
    var gems: seq<ExpGem>
    var particles: seq<Particle>
    var gameTime: real
    var kills: int
    var gun: AutoGun
    var disc: OrbitingDisc
    var weapons: seq<Arm>

    function GetFlags(): Flags
      reads this
    {
      Flags(running, paused, gameOver)
    }

    /** What the objects of one game owe each other (see `Coherent`). */
    ghost predicate Valid()
      reads this, player.animation, spawner, exp, menu, gun, gun.base, disc, disc.base
    {
      Coherent(cfg, player, spawner, exp, menu, gun, disc, weapons, zombies, bullets, gems, particles)
    }

    /** The state `__init__` builds: running, at time 0 with no kills and empty lists, and
        sub-systems as `Pristine` says. */
    ghost predicate Initial()
      reads this, player, spawner, exp, menu, gun.base, disc.base
    {
      && running && !paused && !gameOver
      && zombies == [] && bullets == [] && gems == [] && particles == []
      && gameTime == 0.0 && kills == 0
      && Pristine(cfg, player, spawner, exp, menu, gun, disc)
    }

    constructor(cfg: Config, palette: Palette)
      requires cfg.Valid()
      ensures this.cfg == cfg && this.palette == palette
      ensures Valid() && Initial()
    {
      this.cfg := cfg;
      this.palette := palette;
      var p, sp, ex, mn, g, d := NewParts(cfg, palette);
      running, paused, gameOver := true, false, false;
      player, spawner, exp, menu, gun, disc := p, sp, ex, mn, g, d;
      zombies, bullets, gems, particles := [], [], [], [];
      gameTime, kills := 0.0, 0;
      weapons := [Gun(g), Disc(d)];
    }

    /** The sub-systems `__init__` creates, before they are stored in the game. */
    static method NewParts(cfg: Config, palette: Palette)
      returns (p: Player, sp: ZombieSpawner, ex: ExperienceSystem, mn: UpgradeMenu, g: AutoGun, d: OrbitingDisc)
      requires cfg.Valid()
      ensures fresh(p) && fresh(p.animation) && fresh(sp) && fresh(ex) && fresh(mn)
      ensures fresh(g) && fresh(g.base) && fresh(d) && fresh(d.base)
      ensures Coherent(cfg, p, sp, ex, mn, g, d, [Gun(g), Disc(d)], [], [], [], [])
      ensures Pristine(cfg, p, sp, ex, mn, g, d)
    {
      p := new Player((cfg.width / 2) as real, (cfg.height / 2) as real, cfg, palette.player);
      sp := new ZombieSpawner(cfg.width, cfg.height, cfg);
      ex := new ExperienceSystem(cfg.expToLevel, cfg.expLevelMultiplier);
      mn := new UpgradeMenu(cfg.width, cfg.height);
      g := new AutoGun(p, cfg, palette.bullet);
      d := new OrbitingDisc(p, cfg);
    }

    /** `restart()`: the game starts over from a fresh initial state. */
    method Restart()
      requires cfg.Valid()
      modifies this`running, this`paused, this`gameOver, this`player, this`spawner, this`exp, this`menu
      modifies this`gun, this`disc, this`weapons, this`zombies, this`bullets, this`gems, this`particles
      modifies this`gameTime, this`kills
      ensures Valid() && Initial()
      ensures fresh(player) && fresh(spawner) && fresh(exp) && fresh(menu)
      ensures fresh(gun) && fresh(gun.base) && fresh(disc) && fresh(disc.base)
    {
      var p, sp, ex, mn, g, d := NewParts(cfg, palette);
      Install(p, sp, ex, mn, g, d);
    }

    /** Stores a new set of sub-systems with empty lists and fresh flags. */
    method Install(p: Player, sp: ZombieSpawner, ex: ExperienceSystem, mn: UpgradeMenu, g: AutoGun, d: OrbitingDisc)
      modifies this`running, this`paused, this`gameOver, this`player, this`spawner, this`exp, this`menu
      modifies this`gun, this`disc, this`weapons, this`zombies, this`bullets, this`gems, this`particles
      modifies this`gameTime, this`kills
      ensures running && !paused && !gameOver
      ensures player == p && spawner == sp && exp == ex && menu == mn && gun == g && disc == d
      ensures zombies == [] && bullets == [] && gems == [] && particles == []
      ensures gameTime == 0.0 && kills == 0 && weapons == [Gun(g), Disc(d)]
    {
      InstallParts(p, sp, ex, mn, g, d);
      ClearLists();
    }

    method InstallParts(p: Player, sp: ZombieSpawner, ex: ExperienceSystem, mn: UpgradeMenu, g: AutoGun, d: OrbitingDisc)
      modifies this`player, this`spawner, this`exp, this`menu, this`gun, this`disc, this`weapons
      ensures player == p && spawner == sp && exp == ex && menu == mn && gun == g && disc == d
      ensures weapons == [Gun(g), Disc(d)]
    {
      player, spawner, exp, menu, gun, disc := p, sp, ex, mn, g, d;
      weapons := [Gun(g), Disc(d)];
    }

    method ClearLists()
      modifies this`running, this`paused, this`gameOver, this`zombies, this`bullets, this`gems
      modifies this`particles, this`gameTime, this`kills
      ensures running && !paused && !gameOver
      ensures zombies == [] && bullets == [] && gems == [] && particles == []
      ensures gameTime == 0.0 && kills == 0
    {
      running, paused, gameOver := true, false, false;
      zombies, bullets, gems, particles := [], [], [], [];
      gameTime, kills := 0.0, 0;
    }

    /** One event of `handle_events`: the flags change as `OnEvent` says, a restart gives
        the initial state, and a click is passed to the open menu. */
    method HandleEvent(e: Event)
      requires Valid()
      modifies this`running, this`paused, this`gameOver, this`player, this`spawner, this`exp, this`menu
      modifies this`gun, this`disc, this`weapons, this`zombies, this`bullets, this`gems, this`particles
      modifies this`gameTime, this`kills
      modifies menu`active, menu`selected, player, gun, gun.base, disc, disc.base
      ensures Valid()
      ensures var (f, a) := OnEvent(old(GetFlags()), e, old(menu.active));
              && (a != RestartGame ==> GetFlags() == f)
              && (a == RestartGame ==> Initial())
              && (a == NoAction ==> menu == old(menu) && menu.active == old(menu.active))
    ensures Renewed(old(player), old(menu), old(gun), old(gun.base), old(disc), old(disc.base))
    {
      var (f, a) := OnEvent(GetFlags(), e, menu.active);
      SetFlags(f);
      match a
      case NoAction =>
      case RestartGame =>
        Restart();
      case MenuClick(x, y) =>
        ClickMenu(x, y);
    }

    /** The player, menu and weapons are the given ones or were created since. */
    twostate predicate Renewed(p: Player, mn: UpgradeMenu, g: AutoGun, gb: Weapon, d: OrbitingDisc, db: Weapon)
      reads this, gun, disc
    {
      && (player == p || fresh(player)) && (menu == mn || fresh(menu))
      && (gun == g || fresh(gun)) && (gun.base == gb || fresh(gun.base))
      && (disc == d || fresh(disc)) && (disc.base == db || fresh(disc.base))
    }

    method SetFlags(f: Flags)
      modifies this`running, this`paused, this`gameOver
      ensures GetFlags() == f
    {
      running, paused, gameOver := f.running, f.paused, f.gameOver;
    }

    /** A click passed to the open upgrade menu: the game stays coherent whether or not the
        click picks a card. */
    method ClickMenu(x: int, y: int)
      requires Valid() && menu.active
      modifies menu`active, menu`selected, player, gun, gun.base, disc, disc.base
      ensures Valid()
    {
      var _ := Click(menu, player, gun, disc, x, y);
    }

    /** `handle_events()` over the events of one frame, in order. */
    method HandleEvents(events: seq<Event>)
      requires Valid()
      modifies this, menu, player, gun, gun.base, disc, disc.base
      ensures Valid()
    {
      var i := 0;
      while i < |events|
        invariant 0 <= i <= |events| && Valid()
        invariant Renewed(old(player), old(menu), old(gun), old(gun.base), old(disc), old(disc.base))
      {
        HandleEvent(events[i]);
        i := i + 1;
      }
    }

    /** The screen as a rectangle. */
    function Screen(): Rect {
      Rect(0.0, 0.0, cfg.width as real, cfg.height as real)
    }

    /** The player step of `update`: move by the held keys, stay on screen, and count the
        immunity window down. */
    method PlayerPhase(held: set<Key>, dt: real, m: MathLib)
      requires Valid() && m.Valid()
      modifies player`rect, player`invulnerableTime, player.animation`currentFrame, player.animation`animationTimer
      ensures Valid()
      ensures player.rect.width == old(player.rect.width) && player.rect.height == old(player.rect.height)
      ensures player.rect.width < cfg.width as real ==> 0.0 <= player.rect.left && player.rect.Right() <= cfg.width as real
      ensures player.rect.height < cfg.height as real ==> 0.0 <= player.rect.top && player.rect.Bottom() <= cfg.height as real
      ensures player.invulnerableTime == Cooldown(old(player.invulnerableTime), dt)
    {
      player.HandleInput(held, dt, m);
      player.Clamp(cfg.width, cfg.height);
      player.Update(dt);
    }

    /** The weapon step of `update`: each weapon of the list, the gun and then the disc,
        updates against the zombies and its new bullets join the end of the list. */
    method WeaponPhase(dt: real, m: MathLib)
      requires Valid()
      modifies gun`shootTimer, disc`angle, disc`hitCooldown, zombies`health, zombies`alive, this`bullets
      ensures Valid()
      ensures |bullets| >= |old(bullets)| && bullets[..|old(bullets)|] == old(bullets)
      ensures forall i :: |old(bullets)| <= i < |bullets| ==>
                fresh(bullets[i]) && bullets[i].alive && bullets[i].pierceCount == 0
    {
      FireGun(dt, m);
      SpinDisc(dt, m);
    }

    /** The gun's turn: its bullets join the end of the list. */
    method FireGun(dt: real, m: MathLib)
      requires Valid()
      modifies gun`shootTimer, this`bullets
      ensures Valid()
      ensures |bullets| >= |old(bullets)| && bullets[..|old(bullets)|] == old(bullets)
      ensures forall i :: |old(bullets)| <= i < |bullets| ==>
                fresh(bullets[i]) && bullets[i].alive && bullets[i].pierceCount == 0
    {
      var shots := gun.Update(dt, zombies, m);
      AppendFresh(bullets, shots);
      bullets := bullets + shots;
      assert bullets[..|old(bullets)|] == old(bullets);
      assert Armed(cfg, player, menu, gun, disc, weapons);
    }

    /** The disc's turn: it turns and hurts the zombies it touches (as its own `Update`
        says), and adds no bullets. */
    method SpinDisc(dt: real, m: MathLib)
      requires Valid()
      modifies disc`angle, disc`hitCooldown, zombies`health, zombies`alive
      ensures Valid()
      ensures disc.angle == Turned(old(disc.angle), disc.rotationSpeed, dt)
    {
      var more := disc.Update(dt, zombies, m);
      assert more == [];
      assert Armed(cfg, player, menu, gun, disc, weapons);
      assert Roster(zombies, bullets, gems, particles);
    }

    /** The void-particle step of `update`: with a draw below 0.3 one void particle appears
        around the player's centre. */
    method VoidPhase(roll: real, offset: (int, int), draw: VoidDraw)
      requires Valid()
      requires -VoidSpread <= offset.0 <= VoidSpread && -VoidSpread <= offset.1 <= VoidSpread
      requires VoidDrawInRange(draw)
      modifies this`particles
      ensures Valid()
      ensures roll >= 0.3 ==> particles == old(particles)
      ensures roll < 0.3 ==>
                && |particles| == |old(particles)| + 1 && particles[..|old(particles)|] == old(particles)
                && var p := particles[|old(particles)|];
                   && p.Drift? && fresh(p.void) && p.void.life == 1.0
                   && p.void.x == player.rect.CenterX() + offset.0 as real
                   && p.void.y == player.rect.CenterY() + offset.1 as real
    {
      if roll < 0.3 {
        var ps := CreateVoidParticles(player.rect.CenterX(), player.rect.CenterY(), 1, [offset], [draw]);
        var p := Drift(ps[0]);
        assert p !in particles;
        particles := particles + [p];
        assert particles[..|old(particles)|] == old(particles);
      }
    }

    /** The spawn step of `update`: the spawner's clock advances by dt, and when its timer
        reaches the current interval one new zombie joins the end of the list. */
    method SpawnPhase(dt: real, d: SpawnDraw)
      requires Valid() && dt >= 0.0
      modifies spawner`gameTime, spawner`spawnTimer, spawner`zombiesSpawned, this`zombies
      ensures Valid()
      ensures spawner.gameTime == old(spawner.gameTime) + dt
      ensures var due := old(spawner.spawnTimer) + dt >= SpawnInterval(cfg.zombieSpawnRate, spawner.gameTime);
              && (!due ==> zombies == old(zombies) && spawner.spawnTimer == old(spawner.spawnTimer) + dt)
              && (due ==> && spawner.spawnTimer == 0.0
                          && |zombies| == |old(zombies)| + 1 && zombies[..|old(zombies)|] == old(zombies)
                          && fresh(zombies[|old(zombies)|]) && spawner.Spawned(zombies[|old(zombies)|], d))
    {
      var due := spawner.ShouldSpawn(dt);
      if due {
        var z := spawner.SpawnZombie(d);
        zombies := zombies + [z];
        assert zombies[..|old(zombies)|] == old(zombies);
      }
    }

    /** The zombie step of `update`: every zombie moves toward the player's centre, and each
        live one that then overlaps the player tries to hurt it, in list order; `lethal`
        says whether a hit killed the player, which ends the game. */
    method ZombiePhase(dt: real, m: MathLib) returns (lethal: bool)
      requires Valid()
      modifies zombies`rect, zombies`vx, zombies`vy, player`health, player`alive, player`invulnerableTime
      ensures Valid()
      ensures forall j :: 0 <= j < |zombies| ==>
                zombies[j].rect == Chased(old(zombies[j].rect), zombies[j].alive, zombies[j].speed,
                                          player.rect.CenterX(), player.rect.CenterY(), dt, m)
      ensures (player.Vitals(), lethal) == HitAll(old(player.Vitals()), Contacts(player.rect, zombies))
    {
      lethal := UpdateZombies(zombies, player, dt, m);
      assert unchanged(this, player.animation, spawner, exp, menu, gun, gun.base, disc, disc.base);
    }

    /** The bullet step of `update` (see `UpdateBullets`): bullets and zombies only leave their
        lists, each zombie that leaves is counted as a kill, and each kill adds one gem
        and a burst of death particles at the end of their lists. */
    method BulletPhase(dt: real, m: MathLib, bursts: seq<seq<DeathDraw>>)
      requires Valid() && BurstsInRange(bursts, |bullets|, m.pi)
      modifies bullets`x, bullets`y, bullets`alive, bullets`pierceCount, zombies`health, zombies`alive
      modifies this`bullets, this`zombies, this`gems, this`particles, this`kills
      ensures Valid()
      ensures forall j :: 0 <= j < |old(bullets)| ==>
                var b := old(bullets)[j];
                && b.x == Travel(old(b.x), b.vx, dt) && b.y == Travel(old(b.y), b.vy, dt)
                && (b in bullets <==> old(b.alive) && !Offscreen(b.x, b.y, cfg.width, cfg.height))
                && (b.alive ==> old(b.alive))
      ensures forall b :: b in bullets ==> b in old(bullets)
      ensures forall z :: z in zombies ==> z in old(zombies)
      ensures forall j :: 0 <= j < |old(zombies)| ==>
                (old(zombies)[j] !in zombies <==> old(zombies[j].alive) && !old(zombies)[j].alive)
      ensures kills == old(kills) + (|old(zombies)| - |zombies|) && old(kills) <= kills <= old(kills) + |old(bullets)|
      ensures |gems| == |old(gems)| + (kills - old(kills)) && gems[..|old(gems)|] == old(gems)
      ensures |particles| == |old(particles)| + DeathBurst * (kills - old(kills))
      ensures particles[..|old(particles)|] == old(particles)
      ensures forall j :: |old(gems)| <= j < |gems| ==> fresh(gems[j])
      ensures forall j :: |old(particles)| <= j < |particles| ==> particles[j].Burst? && fresh(particles[j].death)
      ensures gameTime == old(gameTime) && gameOver == old(gameOver) && spawner.gameTime == old(spawner.gameTime)
      ensures player.health == old(player.health) && player.alive == old(player.alive)
    {
      var bs, zs, found, burst, killed := UpdateBullets(bullets, zombies, palette.exp, cfg.width, cfg.height, dt, m, bursts);
      assert unchanged(player.animation, spawner, exp, menu, gun, gun.base, disc, disc.base);
      AppendFresh(gems, found);
      AppendFresh(particles, burst);
      Store(bs, zs, gems + found, particles + burst, kills + killed);
      assert gems[..|old(gems)|] == old(gems);
      assert particles[..|old(particles)|] == old(particles);
      assert Systems(cfg, spawner, exp);
      assert Armed(cfg, player, menu, gun, disc, weapons);
    }

    /** The movement half of the gem step of `update` (see `Sweep`): the gems within the
        collection distance of the player's centre leave the list, and `vals` are their
        values in list order. */
    method CollectGems(dt: real, m: MathLib) returns (vals: seq<real>)
      requires Valid()
      modifies gems`pulse, gems`attracted, gems`vx, gems`vy, gems`x, gems`y, this`gems
      ensures Valid()
      ensures forall j :: 0 <= j < |old(gems)| ==>
                (old(gems)[j] in gems <==> !old(Near(gems[j], player.rect.CenterX(), player.rect.CenterY(), m)))
      ensures forall g :: g in gems ==> g in old(gems)
      ensures vals == old(Pickups(gems, player.rect.CenterX(), player.rect.CenterY(), m)) && |vals| <= |old(gems)|
      ensures kills == old(kills) && gameTime == old(gameTime) && gameOver == old(gameOver) && unchanged(player, spawner)
    {
      var px, py := player.rect.CenterX(), player.rect.CenterY();
      ghost var spots := Spots(gems);
      PickupsCollected(gems, px, py, m, |gems|);
      assert gems[..|gems|] == gems;
      var gs;
      gs, vals := Sweep(gems, spots, px, py, player.pickupRadius, dt, m);
      gems := gs;
    }

    /** The banking half of the gem step of `update` (see `BankAll`): the collected values
        go to the experience bar in order, and the menu opens on a level-up. */
    method BankGems(vals: seq<real>, picks: seq<seq<int>>) returns (ups: nat)
      requires Valid() && PicksFit(picks, |vals|, |Offers(player, weapons)|)
      modifies exp`level, exp`currentExp, exp`expToNextLevel, exp`totalExp
    modifies menu`active, menu`selected, menu`options, menu`player, menu`weapons
      ensures Valid()
      ensures (exp.State(), ups) == AfterAll(old(exp.State()), vals, exp.growth)
      ensures ups > 0 ==> menu.active && menu.selected == None
      ensures ups == 0 ==> menu.active == old(menu.active)
      ensures unchanged(this, player, player.animation, spawner, gun, gun.base, disc, disc.base)
    {
      ups := BankAll(vals, exp, menu, player, weapons, picks);
      assert Armed(cfg, player, menu, gun, disc, weapons);
    }

    /** Whether `update` does nothing this frame: paused, over, or showing the menu. */
    predicate Halted()
      reads this, menu
    {
      paused || gameOver || menu.active
    }

    /** `update(dt)`: nothing while halted; otherwise the clock advances and the steps run
        in order: player, weapons, void particles, spawning, zombies (a lethal hit ends the
        game), bullets, gems, particles. */
    method Update(held: set<Key>, dt: real, dice: Dice, m: MathLib)
      requires Valid() && m.Valid() && dt >= 0.0 && DiceValid(dice, m.pi)
      modifies this, player, player.animation, spawner, exp, menu, gun, gun.base, disc, disc.base
      modifies (set z | z in zombies), (set b | b in bullets), (set g | g in gems), Voids(particles), Deaths(particles)
      ensures Valid()
      ensures old(Halted()) ==> && unchanged(this) && unchanged(player, player.animation, spawner, exp, menu)
                                && unchanged(gun, gun.base, disc, disc.base)
                                && unchanged(set z | z in zombies) && unchanged(set b | b in bullets)
                                && unchanged(set g | g in gems)
                                && unchanged(Voids(particles)) && unchanged(Deaths(particles))
      ensures !old(Halted()) ==> && gameTime == old(gameTime) + dt
                                 && spawner.gameTime == old(spawner.gameTime) + dt
                                 && kills >= old(kills)
                                 && (gameOver ==> player.health == 0 && !player.alive)
    {
      if paused || gameOver || menu.active {
        return;
      }
      Play(held, dt, dice, m);
    }

    /** One frame of `update` that is not halted: the steps up to the zombies, then the
        rest, with the frame's draws taken from the dice. */
    method Play(held: set<Key>, dt: real, dice: Dice, m: MathLib)
      requires Valid() && m.Valid() && dt >= 0.0 && DiceValid(dice, m.pi) && !gameOver
      modifies this`gameTime, this`gameOver, this`bullets, this`zombies, this`gems, this`particles, this`kills
      modifies player`rect, player`invulnerableTime, player`health, player`alive
      modifies player.animation`currentFrame, player.animation`animationTimer
      modifies spawner`gameTime, spawner`spawnTimer, spawner`zombiesSpawned, gun`shootTimer, disc`angle, disc`hitCooldown
      modifies exp`level, exp`currentExp, exp`expToNextLevel, exp`totalExp
      modifies menu`active, menu`selected, menu`options, menu`player, menu`weapons
      modifies (set z | z in zombies), (set b | b in bullets), (set g | g in gems), Voids(particles), Deaths(particles)
      ensures Valid()
      ensures gameTime == old(gameTime) + dt && spawner.gameTime == old(spawner.gameTime) + dt
      ensures kills >= old(kills)
      ensures gameOver ==> player.health == 0 && !player.alive
    {
      FirstSteps(held, dt, dice.roll, dice.offset, dice.voidDraw, dice.spawn, m);
      LastSteps(dt, dice, m);
    }

    /** The steps of `update` up to the zombies: the clock advances, then the player, the
        weapons, the void particles, the spawner and the zombies take their turns; a
        lethal hit ends the game. Only new bullets, zombies and particles are added. */
    method FirstSteps(held: set<Key>, dt: real, roll: real, offset: (int, int), draw: VoidDraw, spawn: SpawnDraw, m: MathLib)
      requires Valid() && m.Valid() && dt >= 0.0
      requires -VoidSpread <= offset.0 <= VoidSpread && -VoidSpread <= offset.1 <= VoidSpread && VoidDrawInRange(draw)
      modifies this`gameTime, this`gameOver, this`bullets, this`zombies, this`particles
      modifies player`rect, player`invulnerableTime, player`health, player`alive
      modifies player.animation`currentFrame, player.animation`animationTimer
      modifies spawner`gameTime, spawner`spawnTimer, spawner`zombiesSpawned, gun`shootTimer, disc`angle, disc`hitCooldown
      modifies (set z | z in zombies)`health, (set z | z in zombies)`alive
      modifies (set z | z in zombies)`rect, (set z | z in zombies)`vx, (set z | z in zombies)`vy
      ensures Valid()
      ensures gameTime == old(gameTime) + dt && spawner.gameTime == old(spawner.gameTime) + dt
      ensures kills == old(kills)
      ensures gameOver && !old(gameOver) ==> player.health == 0 && !player.alive
      ensures forall j :: 0 <= j < |bullets| ==> bullets[j] in old(bullets) || fresh(bullets[j])
      ensures forall j :: 0 <= j < |zombies| ==> zombies[j] in old(zombies) || fresh(zombies[j])
      ensures forall j :: 0 <= j < |particles| ==>
                particles[j] in old(particles) || (particles[j].Drift? && fresh(particles[j].void))
    {
      Steer(held, dt, m);
      Populate(dt, roll, offset, draw, spawn);
      Fight(dt, m);
    }

    /** The clock, the player and the weapons take their turns; only fresh bullets are
        added. */
    method Steer(held: set<Key>, dt: real, m: MathLib)
      requires Valid() && m.Valid()
      modifies this`gameTime, this`bullets
      modifies player`rect, player`invulnerableTime, player.animation`currentFrame, player.animation`animationTimer
      modifies gun`shootTimer, disc`angle, disc`hitCooldown, zombies`health, zombies`alive
      ensures Valid() && gameTime == old(gameTime) + dt && kills == old(kills) && gameOver == old(gameOver)
      ensures forall j :: 0 <= j < |bullets| ==> bullets[j] in old(bullets) || fresh(bullets[j])
    {
      AdvanceClock(dt);
      PlayerPhase(held, dt, m);
      WeaponPhase(dt, m);
    }

    /** The void particles and the spawner take their turns; only a fresh zombie and a
        fresh void particle can be added. */
    method Populate(dt: real, roll: real, offset: (int, int), draw: VoidDraw, spawn: SpawnDraw)
      requires Valid() && dt >= 0.0
      requires -VoidSpread <= offset.0 <= VoidSpread && -VoidSpread <= offset.1 <= VoidSpread && VoidDrawInRange(draw)
      modifies this`particles, this`zombies, spawner`gameTime, spawner`spawnTimer, spawner`zombiesSpawned
      ensures Valid() && spawner.gameTime == old(spawner.gameTime) + dt
      ensures gameTime == old(gameTime) && bullets == old(bullets) && kills == old(kills) && gameOver == old(gameOver)
      ensures forall j :: 0 <= j < |zombies| ==> zombies[j] in old(zombies) || fresh(zombies[j])
      ensures forall j :: 0 <= j < |particles| ==>
                particles[j] in old(particles) || (particles[j].Drift? && fresh(particles[j].void))
    {
      VoidPhase(roll, offset, draw);
      SpawnPhase(dt, spawn);
    }

    /** The zombies take their turn; a lethal hit ends the game with the player dead. */
    method Fight(dt: real, m: MathLib)
      requires Valid()
      modifies this`gameOver, zombies`rect, zombies`vx, zombies`vy, player`health, player`alive, player`invulnerableTime
      ensures Valid()
      ensures gameOver && !old(gameOver) ==> player.health == 0 && !player.alive
      ensures gameTime == old(gameTime) && spawner.gameTime == old(spawner.gameTime) && kills == old(kills)
      ensures bullets == old(bullets) && zombies == old(zombies) && particles == old(particles)
      ensures (player.Vitals(), gameOver)
              == (HitAll(old(player.Vitals()), Contacts(player.rect, zombies)).0,
                  old(gameOver) || HitAll(old(player.Vitals()), Contacts(player.rect, zombies)).1)
    {
      ghost var v0 := player.Vitals();
      var lethal := ZombiePhase(dt, m);
      OnlyFirstContactHurts(v0, Contacts(player.rect, zombies));
      EndGame(lethal);
    }

    /** The game clock advances by dt. */
    method AdvanceClock(dt: real)
      requires Valid()
      modifies this`gameTime
      ensures Valid() && gameTime == old(gameTime) + dt
    {
      gameTime := gameTime + dt;
    }

    /** A lethal hit ends the game. */
    method EndGame(lethal: bool)
      requires Valid()
      modifies this`gameOver
      ensures Valid() && gameOver == (old(gameOver) || lethal)
      ensures player.Vitals() == old(player.Vitals()) && Contacts(player.rect, zombies) == old(Contacts(player.rect, zombies))
    {
      if lethal {
        gameOver := true;
      }
    }

    /** The steps of `update` from the bullets on: bullets, gems and particles take their
        turns, and collected experience may open the menu. */
    method LastSteps(dt: real, dice: Dice, m: MathLib)
      requires Valid() && DiceValid(dice, m.pi)
      modifies this`bullets, this`zombies, this`gems, this`particles, this`kills
      modifies exp`level, exp`currentExp, exp`expToNextLevel, exp`totalExp
      modifies menu`active, menu`selected, menu`options, menu`player, menu`weapons
      modifies (set b | b in bullets), (set z | z in zombies), (set g | g in gems), Voids(particles), Deaths(particles)
      ensures Valid() && kills >= old(kills)
      ensures gameTime == old(gameTime) && gameOver == old(gameOver) && spawner.gameTime == old(spawner.gameTime)
      ensures player.health == old(player.health) && player.alive == old(player.alive)
    {
      Shoot(dt, dice, m);
      Gather(dt, dice, m);
      ParticlePhase(dt);
    }

    /** The bullet step with the frame's death-particle draws taken from the dice: bullets
        and zombies only leave their lists, and only fresh gems and death particles join. */
    method Shoot(dt: real, dice: Dice, m: MathLib)
      requires Valid() && DiceValid(dice, m.pi)
      modifies bullets`x, bullets`y, bullets`alive, bullets`pierceCount, zombies`health, zombies`alive
      modifies this`bullets, this`zombies, this`gems, this`particles, this`kills
      ensures Valid() && kills >= old(kills)
      ensures gameTime == old(gameTime) && gameOver == old(gameOver) && spawner.gameTime == old(spawner.gameTime)
      ensures player.health == old(player.health) && player.alive == old(player.alive)
      ensures forall b :: b in bullets ==> b in old(bullets)
      ensures forall z :: z in zombies ==> z in old(zombies)
      ensures forall j :: 0 <= j < |gems| ==> gems[j] in old(gems) || fresh(gems[j])
      ensures Voids(particles) == old(Voids(particles))
      ensures forall d :: d in Deaths(particles) ==> d in old(Deaths(particles)) || fresh(d)
    {
      ghost var p0 := particles;
      DrawsFit(dice, m.pi, |bullets|, 0, 0);
      BulletPhase(dt, m, BurstDraws(dice, |bullets|));
      BurstsAppended(p0, particles);
    }

    /** The gem step of `update`: the gems near the player are collected and their values
        banked in order (see `CollectGems` and `BankGems`). */
    method Gather(dt: real, dice: Dice, m: MathLib)
      requires Valid() && DiceValid(dice, m.pi)
      modifies gems`pulse, gems`attracted, gems`vx, gems`vy, gems`x, gems`y, this`gems
      modifies exp`level, exp`currentExp, exp`expToNextLevel, exp`totalExp
      modifies menu`active, menu`selected, menu`options, menu`player, menu`weapons
      ensures Valid() && kills == old(kills) && particles == old(particles)
      ensures gameTime == old(gameTime) && gameOver == old(gameOver) && spawner.gameTime == old(spawner.gameTime)
      ensures player.health == old(player.health) && player.alive == old(player.alive)
    {
      var vals := CollectGems(dt, m);
      var n := |Offers(player, weapons)|;
      DrawsFit(dice, m.pi, 0, |vals|, n);
      var ups := BankGems(vals, SampleDraws(dice, |vals|, n));
    }

    /** The particle step of `update` (see `UpdateParticles`): every particle advances, and the list
        keeps, in order, those still visible. */
    method ParticlePhase(dt: real)
      requires Valid()
      modifies Voids(particles), Deaths(particles), this`particles
      ensures Valid()
      ensures States(old(particles)) == AdvanceAll(old(particles), old(States(particles)), dt)
      ensures particles == Visible(old(particles))
      ensures kills == old(kills)
      ensures gameTime == old(gameTime) && gameOver == old(gameOver) && spawner.gameTime == old(spawner.gameTime)
      ensures player.health == old(player.health) && player.alive == old(player.alive)
    {
      var kept := AgeParticles(dt);
      KeepParticles(kept, particles);
    }

    /** Stores a particle list without repeats whose particles are in a state their
        updates accept; the game stays coherent. */
    method KeepParticles(ps: seq<Particle>, ghost others: seq<Particle>)
      requires Valid() && Distinct(ps) && ParticlesValid(ps)
      modifies this`particles
      ensures Valid() && particles == ps
      ensures States(others) == old(States(others)) && Visible(others) == old(Visible(others))
    {
      particles := ps;
    }

    /** The particles advance in place; `kept` are those still visible, in order. */
    method AgeParticles(dt: real) returns (kept: seq<Particle>)
      requires Valid()
      modifies Voids(particles), Deaths(particles)
      ensures Valid()
      ensures States(particles) == AdvanceAll(particles, old(States(particles)), dt)
      ensures kept == Visible(particles) && Distinct(kept) && ParticlesValid(kept)
    {
      ghost var motes := States(particles);
      kept := UpdateParticles(particles, motes, dt);
      assert States(particles) == AdvanceAll(particles, motes, dt);
      assert unchanged(this, player.animation, spawner, exp, menu, gun, gun.base, disc, disc.base);
      VisibleShown(particles, motes, dt, |particles|);
      assert particles[..|particles|] == particles;
      ShownKeeps(particles, motes, dt, |particles|);
    }

    /** Stores the entity lists and the kill count a step computed. */
    method Store(bs: seq<Bullet>, zs: seq<Zombie>, gs: seq<ExpGem>, ps: seq<Particle>, k: int)
      modifies this`bullets, this`zombies, this`gems, this`particles, this`kills
      ensures bullets == bs && zombies == zs && gems == gs && particles == ps && kills == k
    {
      bullets, zombies, gems, particles, kills := bs, zs, gs, ps, k;
    }
  }
}
