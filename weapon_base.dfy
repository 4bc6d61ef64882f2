/** The weapon base (`weapons/weapon_base.py`): an owner fixed at construction, a level
    that starts at 1 and that every upgrade raises by one before the level's effect is
    applied. Subclasses hold their `Weapon` part as `base`. */
module Weapons {
  import opened Players

  class Weapon {
    const owner: Player
    var level: int
    var enabled: bool

    constructor(owner: Player)
      ensures this.owner == owner && level == 1 && enabled
    {
      this.owner := owner;
      level := 1;
      enabled := true;
    }

    /** `upgrade()` on a plain weapon: the level goes up by one and the default
        `apply_upgrade` changes nothing else. */
    method Upgrade()
      modifies this`level
      ensures level == old(level) + 1
    {
      level := level + 1;
      ApplyUpgrade();
    }

    /** The default `apply_upgrade`: no effect (its empty frame says so). */
    method ApplyUpgrade()
    {
    }
  }
}
