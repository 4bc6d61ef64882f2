/** The level-up menu (`ui/upgrade_menu.py`): up to three cards drawn from the offered
    upgrades, a click test on three fixed 280 x 400 card slots, and the effect of the card
    taken on the player and the weapons. Fonts and drawing are left out. */
module Menus {
  import opened Numbers
  import opened Players
  import opened Weapons
  import opened Guns
  import opened Discs
  import opened Upgrades

  const CardWidth: int := 280
  const CardHeight: int := 400
  const CardSpacing: int := 40

  /** The left edge of the first card: the three cards and two gaps centred, floored. */
  function StartX(screenWidth: int): int {
    (screenWidth - (CardWidth * 3 + CardSpacing * 2)) / 2
  }

  /** The top edge shared by the cards. */
  function CardY(screenHeight: int): int {
    (screenHeight - CardHeight) / 2
  }

  /** The left edge of card i. */
  function CardX(i: int, screenWidth: int): int {
    StartX(screenWidth) + i * (CardWidth + CardSpacing)
  }

  /** `Rect(card_x, card_y, 280, 400).collidepoint(pos)`: right and bottom edges excluded. */
  predicate InCard(i: int, mx: int, my: int, screenWidth: int, screenHeight: int) {
    && CardX(i, screenWidth) <= mx < CardX(i, screenWidth) + CardWidth
    && CardY(screenHeight) <= my < CardY(screenHeight) + CardHeight
  }

  /** The cards never overlap, so a click is on one card at most: the one whose slot of
      320 pixels, counted from the first card's left edge, holds the click. */
  lemma CardsDisjoint(i: int, j: int, mx: int, my: int, screenWidth: int, screenHeight: int)
    requires InCard(i, mx, my, screenWidth, screenHeight) && InCard(j, mx, my, screenWidth, screenHeight)
    ensures i == j
    ensures i == (mx - StartX(screenWidth)) / (CardWidth + CardSpacing)
  {
    var off := mx - StartX(screenWidth);
    assert i * 320 <= off < i * 320 + 280;
  }

  /** `random.sample(available, 3)` with the three distinct positions drawn, or the whole
      list when it has at most three entries. */
  function Sample(available: seq<Upgrade>, picks: seq<int>): (r: seq<Upgrade>)
    requires |available| > 3 ==> |picks| == 3 && Distinct(picks) && forall k :: 0 <= k < 3 ==> 0 <= picks[k] < |available|
    ensures |available| <= 3 ==> r == available
    ensures |r| == if |available| <= 3 then |available| else 3
    ensures forall u :: u in r ==> u in available
    ensures Distinct(available) ==> Distinct(r)
  {
    if |available| <= 3 then available
    else [available[picks[0]], available[picks[1]], available[picks[2]]]
  }

  /** The player stats a boost touches. */
  datatype PlayerStats = PlayerStats(maxHealth: int, health: int, speed: real, pickupRadius: real)

  function StatsOf(p: Player): PlayerStats
    reads p
  {
    PlayerStats(p.maxHealth, p.health, p.speed, p.pickupRadius)
  }

  /** A stat boost: max health grows and heals fully, speed and pickup radius grow, heal
      gives the smaller of health plus the value and max health. */
  function Boost(p: PlayerStats, stat: Stat, value: int): (r: PlayerStats)
    ensures stat == MaxHealth ==> r.maxHealth == p.maxHealth + value && r.health == r.maxHealth
    ensures stat == Heal ==> r.maxHealth == p.maxHealth && r.health <= p.maxHealth && r.health <= p.health + value
    ensures stat == Heal ==> r.health == p.health + value || r.health == p.maxHealth
    ensures stat != MaxHealth && stat != Heal ==> r.health == p.health && r.maxHealth == p.maxHealth
    ensures stat == Speed ==> r.speed == p.speed + value as real
    ensures stat != Speed ==> r.speed == p.speed
    ensures stat == PickupRadius ==> r.pickupRadius == p.pickupRadius + value as real
    ensures stat != PickupRadius ==> r.pickupRadius == p.pickupRadius
  {
    match stat
    case MaxHealth => p.(maxHealth := p.maxHealth + value, health := p.maxHealth + value)
    case Speed => p.(speed := p.speed + value as real)
    case PickupRadius => p.(pickupRadius := p.pickupRadius + value as real)
    case Heal => p.(health := if p.health + value < p.maxHealth then p.health + value else p.maxHealth)
  }

  /** No boost breaks health <= max health, and a non-negative boost lowers nothing. */
  lemma BoostKeepsCap(p: PlayerStats, stat: Stat, value: int)
    requires p.health <= p.maxHealth
    ensures var r := Boost(p, stat, value);
            && r.health <= r.maxHealth
            && (value >= 0 ==> (&& r.health >= p.health && r.maxHealth >= p.maxHealth
                                && r.speed >= p.speed && r.pickupRadius >= p.pickupRadius))
  {}

  /** The position of the first carried weapon of the given class. */
  function FirstOf(classes: seq<WeaponClass>, w: WeaponClass): (r: Option<nat>)
    ensures r.None? <==> w !in classes
    ensures r.Some? ==> r.value < |classes| && classes[r.value] == w
                        && forall k :: 0 <= k < r.value ==> classes[k] != w
  {
    if |classes| == 0 then None
    else if classes[0] == w then Some(0)
    else
      var rest := FirstOf(classes[1..], w);
      if rest.None? then None else Some(rest.value + 1)
  }

  /** The objects a carried weapon consists of. */
  function ArmObjects(a: Arm): set<object> {
    match a
    case Gun(g) => {g, g.base}
    case Disc(d) => {d, d.base}
  }

  /** All objects of a weapon list. */
  function Footprint(weapons: seq<Arm>): set<object> {
    set i, o | 0 <= i < |weapons| && o in ArmObjects(weapons[i]) :: o
  }

  /** No two entries of the weapon list share an object. */
  predicate Separate(weapons: seq<Arm>) {
    forall i, j :: 0 <= i < j < |weapons| ==> ArmObjects(weapons[i]) !! ArmObjects(weapons[j])
  }

  ghost predicate ArmValid(a: Arm)
    reads ArmObjects(a)
  {
    match a
    case Gun(g) => g.Valid()
    case Disc(d) => d.Valid()
  }

  ghost predicate ArmsValid(weapons: seq<Arm>)
    reads Footprint(weapons)
  {
    forall i :: 0 <= i < |weapons| ==> ArmValid(weapons[i])
  }

  /** The shared level of a carried weapon. */
  function LevelOf(a: Arm): int
    reads ArmObjects(a)
  {
    match a
    case Gun(g) => g.base.level
    case Disc(d) => d.base.level
  }

  /** `weapon.upgrade()` on a carried weapon of either class. */
  method UpgradeArm(a: Arm)
    requires ArmValid(a)
    modifies ArmObjects(a)
    ensures ArmValid(a) && LevelOf(a) == old(LevelOf(a)) + 1
  {
    match a
    case Gun(g) => g.Upgrade();
    case Disc(d) => d.Upgrade();
  }

  /** The effect of `apply_upgrade(u)`: a stat boost changes the player as `Boost` says and
      no weapon; a weapon upgrade raises the first weapon of its class by one level and
      changes nothing else; a new-weapon card changes nothing. */
  twostate predicate Applied(u: Upgrade, player: Player, weapons: seq<Arm>)
    reads player, Footprint(weapons)
  {
    && (u.StatBoost? ==> StatsOf(player) == Boost(old(StatsOf(player)), u.stat, u.value))
    && (!u.StatBoost? ==> StatsOf(player) == old(StatsOf(player)))
    && (forall j :: 0 <= j < |weapons| ==>
          LevelOf(weapons[j]) == old(LevelOf(weapons[j]))
                                 + if u.WeaponUpgrade? && FirstOf(Classes(weapons), u.weapon) == Some(j) then 1 else 0)
  }

  /** Weapons whose objects are untouched keep their validity and their levels. */
  twostate lemma ArmsKept(weapons: seq<Arm>)
    requires unchanged(Footprint(weapons))
    ensures ArmsValid(weapons) == old(ArmsValid(weapons))
    ensures forall j :: 0 <= j < |weapons| ==> LevelOf(weapons[j]) == old(LevelOf(weapons[j]))
  {
    forall j | 0 <= j < |weapons|
      ensures unchanged(ArmObjects(weapons[j]))
    {
      assert ArmObjects(weapons[j]) <= Footprint(weapons);
    }
  }

  /** A player is never one of the weapons' objects. */
  lemma PlayerOutside(p: Player, weapons: seq<Arm>)
    ensures p !in Footprint(weapons)
  {}

  /** A menu is never one of the weapons' objects. */
  lemma MenuOutside(mn: UpgradeMenu, weapons: seq<Arm>)
    ensures mn !in Footprint(weapons)
  {}

  /** The stat-boost branch of `apply_upgrade`. */
  method BoostPlayer(p: Player, stat: Stat, value: int)
    modifies p`maxHealth, p`health, p`speed, p`pickupRadius
    ensures StatsOf(p) == Boost(old(StatsOf(p)), stat, value)
  {
    match stat
    case MaxHealth =>
      p.maxHealth := p.maxHealth + value;
      p.health := p.maxHealth;
    case Speed =>
      p.speed := p.speed + value as real;
    case PickupRadius =>
      p.pickupRadius := p.pickupRadius + value as real;
    case Heal =>
      p.health := if p.health + value < p.maxHealth then p.health + value else p.maxHealth;
  }

  /** The weapon-upgrade branch of `apply_upgrade`: the first weapon of the class goes up
      one level, every other weapon keeps its level. */
  method UpgradeFirst(weapons: seq<Arm>, w: WeaponClass)
    requires ArmsValid(weapons) && Separate(weapons)
    modifies Footprint(weapons)
    ensures ArmsValid(weapons)
    ensures forall j :: 0 <= j < |weapons| ==>
              LevelOf(weapons[j]) == old(LevelOf(weapons[j])) + if FirstOf(Classes(weapons), w) == Some(j) then 1 else 0
  {
    var i := 0;
    while i < |weapons| && ClassOf(weapons[i]) != w
      invariant 0 <= i <= |weapons|
      invariant forall k :: 0 <= k < i ==> ClassOf(weapons[k]) != w
    {
      i := i + 1;
    }
    if i < |weapons| {
      assert FirstOf(Classes(weapons), w) == Some(i);
      forall j | 0 <= j < |weapons| && j != i
        ensures ArmObjects(weapons[i]) !! ArmObjects(weapons[j])
      {
        if i < j {} else {}
      }
      UpgradeArm(weapons[i]);
      forall j | 0 <= j < |weapons| && j != i
        ensures ArmValid(weapons[j]) && LevelOf(weapons[j]) == old(LevelOf(weapons[j]))
      {
        var a, b := weapons[j], weapons[i];
        assert ArmObjects(b) !! ArmObjects(a);
        match a
        case Gun(g) =>
          assert g !in ArmObjects(b) && g.base !in ArmObjects(b);
          assert unchanged(g) && unchanged(g.base);
        case Disc(d) =>
          assert d !in ArmObjects(b) && d.base !in ArmObjects(b);
          assert unchanged(d) && unchanged(d.base);
      }
    } else {
      assert w !in Classes(weapons);
    }
  }

  class UpgradeMenu {
    const screenWidth: int
    const screenHeight: int
    var active: bool
    var options: seq<Upgrade>
    var selected: Option<Upgrade>
    var player: Player?
    var weapons: seq<Arm>

    constructor(screenWidth: int, screenHeight: int)
      ensures this.screenWidth == screenWidth && this.screenHeight == screenHeight
      ensures !active && options == [] && selected == None && player == null && weapons == []
    {
      this.screenWidth := screenWidth;
      this.screenHeight := screenHeight;
      active := false;
      options := [];
      selected := None;
      player := null;
      weapons := [];
    }

    /** `show(player, weapons, available)`: open with nothing selected, up to three
        sampled options, and the player and weapons the choice will apply to. */
    method Show(player: Player, weapons: seq<Arm>, available: seq<Upgrade>, picks: seq<int>)
      requires |available| > 3 ==> |picks| == 3 && Distinct(picks) && forall k :: 0 <= k < 3 ==> 0 <= picks[k] < |available|
      modifies this`active, this`selected, this`options, this`player, this`weapons
      ensures active && selected == None && this.player == player && this.weapons == weapons
      ensures options == Sample(available, picks)
    {
      active := true;
      selected := None;
      if |available| <= 3 {
        options := available;
      } else {
        options := [available[picks[0]], available[picks[1]], available[picks[2]]];
      }
      this.player := player;
      this.weapons := weapons;
    }

    /** `apply_upgrade(upgrade)`. */
    method ApplyUpgrade(u: Upgrade)
      requires player != null && ArmsValid(weapons) && Separate(weapons)
      modifies player, Footprint(weapons)
      ensures ArmsValid(weapons) && Applied(u, player, weapons)
    {
      MenuOutside(this, weapons);
      if u.WeaponUpgrade? {
        PlayerOutside(player, weapons);
        UpgradeFirst(weapons, u.weapon);
      } else if u.StatBoost? {
        PlayerOutside(player, weapons);
        BoostPlayer(player, u.stat, u.value);
        ArmsKept(weapons);
      }
    }

    /** `handle_click(pos)`: ignored while closed; otherwise a click on card i takes
        option i (records it, applies it, closes the menu and returns it), and a click on
        no card returns nothing and leaves the menu open. */
    method HandleClick(mx: int, my: int) returns (chosen: Option<Upgrade>)
      requires active ==> player != null && ArmsValid(weapons) && Separate(weapons)
      modifies this`active, this`selected, player, Footprint(weapons)
      ensures !old(active) ==> chosen == None && !active && selected == old(selected)
      ensures !old(active) ==> player == null || unchanged(player)
      ensures !old(active) ==> unchanged(Footprint(weapons))
      ensures old(active) ==> (chosen.None? <==> forall i :: 0 <= i < |options| ==> !InCard(i, mx, my, screenWidth, screenHeight))
      ensures old(active) && chosen.None? ==> active && selected == old(selected)
      ensures old(active) && chosen.None? ==> unchanged(player) && unchanged(Footprint(weapons))
      ensures forall i :: old(active) && 0 <= i < |options| && InCard(i, mx, my, screenWidth, screenHeight) ==>
                && chosen == Some(options[i]) && selected == chosen && !active
                && player != null && ArmsValid(weapons) && Applied(options[i], player, weapons)
    {
      if !active {
        return None;
      }
      MenuOutside(this, weapons);
      var i := 0;
      while i < |options|
        invariant 0 <= i <= |options|
        invariant forall k :: 0 <= k < i ==> !InCard(k, mx, my, screenWidth, screenHeight)
      {
        if InCard(i, mx, my, screenWidth, screenHeight) {
          forall k | 0 <= k < |options| && InCard(k, mx, my, screenWidth, screenHeight)
            ensures k == i
          {
            CardsDisjoint(i, k, mx, my, screenWidth, screenHeight);
          }
          selected := Some(options[i]);
          ApplyUpgrade(options[i]);
          active := false;
          return Some(options[i]);
        }
        i := i + 1;
      }
      return None;
    }
  }
}
