/** The zombie spawner (`systems/spawner.py`): a clock whose spawn period is the base rate
    divided by 1 + 0.2 per elapsed 30 seconds, edge placement just off screen, and zombie
    types unlocked by elapsed time. Random choices are passed in as draws. */
module Spawning {
  import opened Numbers
  import opened Geometry
  import opened Settings
  import opened Zombies

  /** Distance outside the screen at which zombies appear. */
  const SpawnMargin: int := 50

  /** `1 + (game_time // 30) * 0.2`. */
  function DifficultyMultiplier(gameTime: real): (r: real)
    requires gameTime >= 0.0
    ensures r >= 1.0
  {
    1.0 + (gameTime / 30.0).Floor as real * 0.2
  }

  /** The spawn period at a given game time: ZOMBIE_SPAWN_RATE / multiplier. */
  function SpawnInterval(rate: real, gameTime: real): real
    requires gameTime >= 0.0
  {
    rate / DifficultyMultiplier(gameTime)
  }

  /** Dividing a non-negative amount by a larger positive number gives less. */
  lemma DivideByMore(rate: real, a: real, b: real)
    requires rate >= 0.0 && 0.0 < a <= b
    ensures rate / b <= rate / a
  {
    var qa, qb := rate / a, rate / b;
    assert qa * a == rate && qb * b == rate;
    NonNegativeProduct(qa, b - a);
    assert qa * b - qa * a == qa * (b - a);
    assert qb * b <= qa * b;
    if qb > qa {
      PositiveProduct(qb - qa, b);
    }
  }

  /** Dividing a positive amount by a larger positive number gives strictly less. */
  lemma DivideByMoreStrict(rate: real, a: real, b: real)
    requires rate > 0.0 && 0.0 < a < b
    ensures rate / b < rate / a
  {
    var qa, qb := rate / a, rate / b;
    assert qa * a == rate && qb * b == rate;
    PositiveProduct(qa, b - a);
    assert qa * b - qa * a == qa * (b - a);
    assert qb * b < qa * b;
    if qb >= qa {
      NonNegativeProduct(qb - qa, b);
    }
  }

  /** The floor of a quotient by 30 is monotone. */
  lemma BucketMonotone(t1: real, t2: real)
    requires t1 <= t2
    ensures (t1 / 30.0).Floor <= (t2 / 30.0).Floor
  {}

  /** The spawn period never grows as the game goes on. */
  lemma IntervalNonIncreasing(rate: real, t1: real, t2: real)
    requires rate >= 0.0 && 0.0 <= t1 <= t2
    ensures SpawnInterval(rate, t2) <= SpawnInterval(rate, t1)
  {
    BucketMonotone(t1, t2);
    DivideByMore(rate, DifficultyMultiplier(t1), DifficultyMultiplier(t2));
  }

  /** Within the k-th 30-second bucket the period is rate / (1 + 0.2k), and it strictly
      drops when the next bucket begins. */
  lemma IntervalDropsAtBoundary(rate: real, k: nat, t: real)
    requires rate > 0.0
    requires 30.0 * k as real <= t < 30.0 * (k + 1) as real
    ensures DifficultyMultiplier(t) == 1.0 + k as real * 0.2
    ensures SpawnInterval(rate, 30.0 * (k + 1) as real) < SpawnInterval(rate, t)
  {
    assert (t / 30.0).Floor == k;
    var next := 30.0 * (k + 1) as real;
    assert (next / 30.0).Floor == k + 1;
    DivideByMoreStrict(rate, DifficultyMultiplier(t), DifficultyMultiplier(next));
  }

  /** The four screen edges `random.choice` picks from. */
  datatype Edge = Top | RightEdge | Bottom | LeftEdge

  /** The random draws behind one `spawn_zombie`: the edge, the `randint` along it, and the
      `random()` behind the weighted type choice. */
  datatype SpawnDraw = SpawnDraw(edge: Edge, along: int, roll: real)

  /** The draw is one the random module can produce on a screen of this size. */
  predicate DrawInRange(d: SpawnDraw, screenWidth: int, screenHeight: int) {
    && 0.0 <= d.roll < 1.0
    && (d.edge == Top || d.edge == Bottom ==> 0 <= d.along <= screenWidth)
    && (d.edge == RightEdge || d.edge == LeftEdge ==> 0 <= d.along <= screenHeight)
  }

  /** Where `spawn_zombie` puts a zombie. */
  function SpawnPosition(edge: Edge, along: int, screenWidth: int, screenHeight: int): (p: (int, int))
    ensures edge == Top ==> p == (along, -SpawnMargin)
    ensures edge == RightEdge ==> p == (screenWidth + SpawnMargin, along)
    ensures edge == Bottom ==> p == (along, screenHeight + SpawnMargin)
    ensures edge == LeftEdge ==> p == (-SpawnMargin, along)
  {
    match edge
    case Top => (along, -SpawnMargin)
    case RightEdge => (screenWidth + SpawnMargin, along)
    case Bottom => (along, screenHeight + SpawnMargin)
    case LeftEdge => (-SpawnMargin, along)
  }

  /** Zombies appear on the 50-pixel ring just outside the screen, never on it. */
  lemma SpawnOffscreen(d: SpawnDraw, screenWidth: int, screenHeight: int)
    requires screenWidth >= 0 && screenHeight >= 0
    requires DrawInRange(d, screenWidth, screenHeight)
    ensures var (x, y) := SpawnPosition(d.edge, d.along, screenWidth, screenHeight);
            && -SpawnMargin <= x <= screenWidth + SpawnMargin
            && -SpawnMargin <= y <= screenHeight + SpawnMargin
            && (x < 0 || x > screenWidth || y < 0 || y > screenHeight)
  {}

  /** `choose_zombie_type` given the game time and the `random()` draw behind
      `random.choices`: basic only before 30 s, basic or fast (70 : 30) before 60 s, and
      basic, fast or tank (50 : 30 : 20) after. */
  function ChooseZombieType(gameTime: real, roll: real): (k: ZombieKind)
    ensures gameTime < 30.0 ==> k == Basic
    ensures gameTime < 60.0 ==> k != Tank
    ensures 30.0 <= gameTime < 60.0 ==> (k == Basic <==> roll < 0.7)
    ensures gameTime >= 60.0 ==> (k == Basic <==> roll < 0.5) && (k == Tank <==> roll >= 0.8)
  {
    if gameTime < 30.0 then Basic
    else if gameTime < 60.0 then (if roll < 0.7 then Basic else Fast)
    else if roll < 0.5 then Basic
    else if roll < 0.8 then Fast
    else Tank
  }

  /** Every type the time bucket allows can actually come up. */
  lemma EveryTypeReachable(gameTime: real)
    ensures gameTime >= 30.0 ==> exists roll :: 0.0 <= roll < 1.0 && ChooseZombieType(gameTime, roll) == Fast
    ensures gameTime >= 60.0 ==> exists roll :: 0.0 <= roll < 1.0 && ChooseZombieType(gameTime, roll) == Tank
  {
    if gameTime >= 30.0 {
      assert ChooseZombieType(gameTime, 0.75) == Fast;
    }
    if gameTime >= 60.0 {
      assert ChooseZombieType(gameTime, 0.9) == Tank;
    }
  }

  class ZombieSpawner {
    const screenWidth: int
    const screenHeight: int
    const cfg: Config
    var spawnTimer: real
    const spawnRate: real
    var gameTime: real
    var zombiesSpawned: int
    const spawnMargin: int

    ghost predicate Valid()
      reads this
    {
      gameTime >= 0.0 && spawnRate == cfg.zombieSpawnRate && spawnMargin == SpawnMargin
    }

    constructor(screenWidth: int, screenHeight: int, cfg: Config)
      ensures Valid()
      ensures this.screenWidth == screenWidth && this.screenHeight == screenHeight && this.cfg == cfg
      ensures spawnTimer == 0.0 && gameTime == 0.0 && zombiesSpawned == 0
    {
      this.screenWidth := screenWidth;
      this.screenHeight := screenHeight;
      this.cfg := cfg;
      spawnTimer := 0.0;
      spawnRate := cfg.zombieSpawnRate;
      gameTime := 0.0;
      zombiesSpawned := 0;
      spawnMargin := SpawnMargin;
    }

    /** `update(dt)`: both clocks advance by dt and the result is the current period. */
    method Update(dt: real) returns (adjusted: real)
      requires Valid() && dt >= 0.0
      modifies this`gameTime, this`spawnTimer
      ensures Valid()
      ensures gameTime == old(gameTime) + dt && spawnTimer == old(spawnTimer) + dt
      ensures adjusted == SpawnInterval(cfg.zombieSpawnRate, gameTime)
    {
      gameTime := gameTime + dt;
      spawnTimer := spawnTimer + dt;
      var multiplier := 1.0 + (gameTime / 30.0).Floor as real * 0.2;
      adjusted := cfg.zombieSpawnRate / multiplier;
    }

    /** `should_spawn(dt)`: after the clocks advance, fire and restart the spawn timer iff
        it has reached the current period. */
    method ShouldSpawn(dt: real) returns (spawn: bool)
      requires Valid() && dt >= 0.0
      modifies this`gameTime, this`spawnTimer
      ensures Valid() && gameTime == old(gameTime) + dt
      ensures spawn <==> old(spawnTimer) + dt >= SpawnInterval(cfg.zombieSpawnRate, gameTime)
      ensures spawnTimer == if spawn then 0.0 else old(spawnTimer) + dt
    {
      var adjusted := Update(dt);
      if spawnTimer >= adjusted {
        spawnTimer := 0.0;
        return true;
      }
      return false;
    }

    /** `spawn_zombie()`: one new zombie on the drawn edge with a type for the game time. */
    method SpawnZombie(d: SpawnDraw) returns (z: Zombie)
      modifies this`zombiesSpawned
      ensures zombiesSpawned == old(zombiesSpawned) + 1
      ensures fresh(z) && Spawned(z, d)
    {
      var (x, y) := SpawnPosition(d.edge, d.along, screenWidth, screenHeight);
      var kind := ChooseZombieType(gameTime, d.roll);
      zombiesSpawned := zombiesSpawned + 1;
      z := new Zombie(x as real, y as real, kind, cfg);
    }

    /** The zombie is the one `spawn_zombie` makes from draw d at the current game time. */
    ghost predicate Spawned(z: Zombie, d: SpawnDraw)
      reads this, z
    {
      var (x, y) := SpawnPosition(d.edge, d.along, screenWidth, screenHeight);
      var kind := ChooseZombieType(gameTime, d.roll);
      && z.kind == kind && z.Stats() == StatsFor(kind, cfg)
      && z.rect == Centered(x as real, y as real, cfg.zombieSize, cfg.zombieSize)
      && z.health == z.maxHealth as real && z.alive
    }

    /** `spawn_batch(count)`: `count` new zombies (none for a non-positive count), one per
        draw, in order. */
    method SpawnBatch(count: int, draws: seq<SpawnDraw>) returns (zombies: seq<Zombie>)
      requires |draws| >= count
      modifies this`zombiesSpawned
      ensures |zombies| == if count < 0 then 0 else count
      ensures zombiesSpawned == old(zombiesSpawned) + |zombies|
      ensures forall i :: 0 <= i < |zombies| ==> fresh(zombies[i]) && Spawned(zombies[i], draws[i])
      ensures Distinct(zombies)
    {
      zombies := [];
      var i := 0;
      while i < count
        invariant 0 <= i && (count >= 0 ==> i <= count) && (count < 0 ==> i == 0)
        invariant |zombies| == i && zombiesSpawned == old(zombiesSpawned) + i
        invariant forall j :: 0 <= j < i ==> fresh(zombies[j]) && Spawned(zombies[j], draws[j])
        invariant Distinct(zombies)
      {
        var z := SpawnZombie(draws[i]);
        zombies := zombies + [z];
        i := i + 1;
      }
    }
  }
}
