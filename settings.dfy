/** The constants the game reads from its `config` module. Their values are not part of
    this model, so every component takes them as a record of parameters. */
module Settings {

  /** An RGB colour triple. */
  datatype Color = Color(r: int, g: int, b: int)

  datatype Config = Config(
    width: int,                  // WIDTH
    height: int,                 // HEIGHT
    playerSize: real,            // PLAYER_SIZE
    playerMaxHealth: int,        // PLAYER_MAX_HEALTH
    playerSpeed: real,           // PLAYER_SPEED
    playerPickupRadius: real,    // PLAYER_PICKUP_RADIUS
    zombieSize: real,            // ZOMBIE_SIZE
    zombieBaseHealth: int,       // ZOMBIE_BASE_HEALTH
    zombieSpeed: real,           // ZOMBIE_SPEED
    zombieSpawnRate: real,       // ZOMBIE_SPAWN_RATE (seconds between spawns)
    expBaseValue: real,          // EXP_BASE_VALUE
    expToLevel: int,             // EXP_TO_LEVEL
    expLevelMultiplier: real,    // EXP_LEVEL_MULTIPLIER
    bulletSpeed: real,           // BULLET_SPEED
    bulletDamage: real,          // BULLET_DAMAGE
    discRadius: real,            // DISC_RADIUS
    discRotationSpeed: real,     // DISC_ROTATION_SPEED (degrees per second)
    discDamage: real)            // DISC_DAMAGE
  {
    /** What the model assumes of the configuration: a non-empty screen, boxes of
        positive size, positive health and spawn period, a first threshold of at least
        one point that never shrinks, and damage that never heals. */
    predicate Valid() {
      && width > 0 && height > 0
      && playerSize > 0.0 && zombieSize > 0.0
      && playerMaxHealth > 0 && zombieBaseHealth > 0
      && zombieSpawnRate > 0.0
      && expToLevel >= 1 && expLevelMultiplier >= 1.0
      && bulletDamage >= 0.0 && discDamage >= 0.0
    }
  }
}
