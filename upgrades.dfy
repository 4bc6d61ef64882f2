/** The upgrade catalog (`systems/upgrades.py`): ten fixed upgrades, and the filter that
    keeps the weapon upgrades for weapons the player carries and drops the heals while the
    player is at full health. Icons and descriptions are presentation and are left out. */
module Upgrades {
  import opened Numbers
  import opened Players
  import opened Guns
  import opened Discs

  /** The player stats a boost can change. */
  datatype Stat = MaxHealth | Speed | PickupRadius | Heal

  /** The weapon classes an upgrade can name, by their class names. */
  datatype WeaponClass = AutoGunClass | OrbitingDiscClass

  /** One upgrade card: raise a weapon the player has, add a new weapon (never in the
      catalog, and applying it does nothing), or boost a player stat by `value`. */
  datatype Upgrade =
    | WeaponUpgrade(weapon: WeaponClass, name: string)
    | NewWeapon(name: string)
    | StatBoost(stat: Stat, value: int, name: string)

  /** A weapon in the player's list, with its class. */
  datatype Arm = Gun(gun: AutoGun) | Disc(disc: OrbitingDisc)

  function ClassOf(a: Arm): WeaponClass {
    if a.Gun? then AutoGunClass else OrbitingDiscClass
  }

  /** The class names of a weapon list, in order. */
  function Classes(weapons: seq<Arm>): (r: seq<WeaponClass>)
    ensures |r| == |weapons| && forall i :: 0 <= i < |weapons| ==> r[i] == ClassOf(weapons[i])
  {
    seq(|weapons|, i requires 0 <= i < |weapons| => ClassOf(weapons[i]))
  }

  /** `get_all_upgrades()`. */
  function Catalog(): seq<Upgrade> {
    [ WeaponUpgrade(AutoGunClass, "Gun Upgrade"),
      WeaponUpgrade(OrbitingDiscClass, "Disc Upgrade"),
      StatBoost(MaxHealth, 20, "Max Health +20"),
      StatBoost(MaxHealth, 50, "Max Health +50"),
      StatBoost(Speed, 50, "Movement Speed"),
      StatBoost(Speed, 100, "Super Speed"),
      StatBoost(PickupRadius, 40, "Magnet"),
      StatBoost(PickupRadius, 80, "Super Magnet"),
      StatBoost(Heal, 50, "Health Potion"),
      StatBoost(Heal, 100, "Full Heal") ]
  }

  /** The catalog holds ten upgrades: the two weapon upgrades first, then eight stat boosts
      with positive values, of which exactly the last two are heals. */
  lemma CatalogShape()
    ensures |Catalog()| == 10
    ensures Catalog()[0].WeaponUpgrade? && Catalog()[0].weapon == AutoGunClass
    ensures Catalog()[1].WeaponUpgrade? && Catalog()[1].weapon == OrbitingDiscClass
    ensures forall i :: 2 <= i < 10 ==> Catalog()[i].StatBoost? && Catalog()[i].value > 0
    ensures forall i :: 2 <= i < 10 ==> (Catalog()[i].stat == Heal <==> i >= 8)
    ensures Distinct(Catalog())
  {}

  /** Whether the filter keeps an upgrade: a weapon upgrade iff some weapon has its class,
      a heal iff the player is hurt, any other stat boost always, and nothing else. */
  predicate Offered(u: Upgrade, health: int, maxHealth: int, classes: seq<WeaponClass>) {
    match u
    case WeaponUpgrade(w, _) => w in classes
    case NewWeapon(_) => false
    case StatBoost(s, _, _) => s == Heal ==> health < maxHealth
  }

  /** The filtered catalog, as a reference definition. */
  function Available(c: seq<Upgrade>, health: int, maxHealth: int, classes: seq<WeaponClass>): seq<Upgrade> {
    if |c| == 0 then []
    else Available(c[..|c| - 1], health, maxHealth, classes)
         + (if Offered(c[|c| - 1], health, maxHealth, classes) then [c[|c| - 1]] else [])
  }

  /** The catalog positions the filter keeps, in increasing order. */
  function Picked(c: seq<Upgrade>, health: int, maxHealth: int, classes: seq<WeaponClass>): seq<int> {
    if |c| == 0 then []
    else Picked(c[..|c| - 1], health, maxHealth, classes)
         + (if Offered(c[|c| - 1], health, maxHealth, classes) then [|c| - 1] else [])
  }

  /** The filter keeps exactly the offered upgrades. */
  lemma {:induction false} AvailableMembers(c: seq<Upgrade>, health: int, maxHealth: int, classes: seq<WeaponClass>)
    ensures forall u :: u in Available(c, health, maxHealth, classes) <==> u in c && Offered(u, health, maxHealth, classes)
  {
    if |c| > 0 {
      AvailableMembers(c[..|c| - 1], health, maxHealth, classes);
      assert c == c[..|c| - 1] + [c[|c| - 1]];
    }
  }

  /** The filter's output is an order-preserving subsequence of its input: the k-th upgrade
      kept is the one at the k-th position picked, the positions increase, and a position
      is picked iff its upgrade is offered. */
  lemma {:induction false} AvailableInOrder(c: seq<Upgrade>, health: int, maxHealth: int, classes: seq<WeaponClass>)
    ensures var r, pos := Available(c, health, maxHealth, classes), Picked(c, health, maxHealth, classes);
            && |pos| == |r|
            && (forall k :: 0 <= k < |pos| ==> 0 <= pos[k] < |c| && r[k] == c[pos[k]])
            && (forall k, l :: 0 <= k < l < |pos| ==> pos[k] < pos[l])
            && (forall i :: 0 <= i < |c| ==> (i in pos <==> Offered(c[i], health, maxHealth, classes)))
  {
    if |c| > 0 {
      AvailableInOrder(c[..|c| - 1], health, maxHealth, classes);
    }
  }

  /** When every upgrade is offered the filter keeps them all. */
  lemma {:induction false} AvailableAll(c: seq<Upgrade>, health: int, maxHealth: int, classes: seq<WeaponClass>)
    requires forall i :: 0 <= i < |c| ==> Offered(c[i], health, maxHealth, classes)
    ensures Available(c, health, maxHealth, classes) == c
  {
    if |c| > 0 {
      AvailableAll(c[..|c| - 1], health, maxHealth, classes);
      assert c[..|c| - 1] + [c[|c| - 1]] == c;
    }
  }

  /** With both weapons and a hurt player, every upgrade in the catalog is offered; at full
      health the two heals are the ones dropped. */
  lemma OffersInGame(health: int, maxHealth: int, classes: seq<WeaponClass>)
    requires AutoGunClass in classes && OrbitingDiscClass in classes
    ensures health < maxHealth ==> Available(Catalog(), health, maxHealth, classes) == Catalog()
    ensures health >= maxHealth ==> Available(Catalog(), health, maxHealth, classes) == Catalog()[..8]
  {
    var c := Catalog();
    if health < maxHealth {
      AvailableAll(c, health, maxHealth, classes);
    } else {
      AvailableAll(c[..8], health, maxHealth, classes);
      assert c[..9][..8] == c[..8];
      assert c[..9] == c[..|c| - 1];
    }
  }

  /** `get_available_upgrades(player, weapons)`: the catalog entries the player can take,
      in catalog order. */
  method GetAvailableUpgrades(player: Player, weapons: seq<Arm>) returns (available: seq<Upgrade>)
    ensures available == Available(Catalog(), player.health, player.maxHealth, Classes(weapons))
  {
    var all := Catalog();
    var classes := Classes(weapons);
    available := [];
    var i := 0;
    while i < |all|
      invariant 0 <= i <= |all|
      invariant available == Available(all[..i], player.health, player.maxHealth, classes)
    {
      var u := all[i];
      if u.WeaponUpgrade? {
        var hasWeapon := u.weapon in classes;
        if hasWeapon {
          available := available + [u];
        }
      } else if u.StatBoost? {
        if u.stat == Heal {
          if player.health < player.maxHealth {
            available := available + [u];
          }
        } else {
          available := available + [u];
        }
      }
      assert all[..i + 1][..i] == all[..i];
      i := i + 1;
    }
    assert all[..i] == all;
  }
}
