/** A weapon and its attack (civilwar/utils/weapon.py). The distance to the
    target and the dice rolls are inputs: the d20 roll for the to-hit test and
    one roll per damage die. The attack returns nothing; its effects are the
    weapon's remaining usages and the target's health. */
module Weapons {
  import opened Common
  import opened Characters

  /** The weapon's configuration dict; the optional keys may be absent. */
  datatype WeaponConfig = WeaponConfig(
    name: string,
    hit: int,
    dices: int,
    diceType: int,
    damageType: string,
    additional: Option<int>,
    minRange: Option<real>,
    maxRange: Option<real>,
    usages: Option<int>)

  /** What an attack reads of a weapon besides its usages. */
  datatype WeaponProfile = WeaponProfile(
    hit: int,
    dices: int,
    diceType: int,
    damageType: string,
    additional: int,
    minRange: real,
    maxRange: real)

  /** How an attack ends: out of range, out of usages, a miss with the to-hit
      total, or a hit with the to-hit total and the damage dealt. */
  datatype Outcome = OutOfRange | NoAmmo | Missed(total: int) | Hit(total: int, damage: int)

  /** The sum of the dice rolled, added in roll order. */
  function Sum(rolls: seq<int>): int
  {
    if |rolls| == 0 then 0 else Sum(rolls[..|rolls| - 1]) + rolls[|rolls| - 1]
  }

  /** The number of damage dice rolled: `range(dices)` is empty when
      `dices` is not positive. */
  function DiceCount(dices: int): nat
  {
    if dices > 0 then dices else 0
  }

  /** Every roll lies on a die with `sides` faces. */
  predicate RollsOn(rolls: seq<int>, sides: int)
  {
    forall i :: 0 <= i < |rolls| ==> 1 <= rolls[i] <= sides
  }

  predicate InRange(p: WeaponProfile, distance: real)
  {
    p.minRange <= distance <= p.maxRange
  }

  /** The damage of a hit: the additional damage plus the rolls, floored
      to half when the target resists the weapon's type. */
  function Damage(p: WeaponProfile, rolls: seq<int>, resisted: bool): (r: int)
    ensures resisted ==> 2 * r <= p.additional + Sum(rolls) < 2 * r + 2
    ensures !resisted && RollsOn(rolls, p.diceType) ==>
      p.additional + |rolls| <= r <= p.additional + |rolls| * p.diceType
  {
    var raw := p.additional + Sum(rolls);
    if resisted then raw / 2
    else if RollsOn(rolls, p.diceType) then SumBounds(rolls, p.diceType); raw
    else raw
  }

  /** The outcome of `attack` for a target at `distance` with armor `armor`;
      `resisted` tells whether the target resists the weapon's type. */
  function Resolve(p: WeaponProfile, usages: int, distance: real, armor: int, resisted: bool,
                   hitRoll: int, rolls: seq<int>): (r: Outcome)
    ensures r == OutOfRange <==> !InRange(p, distance)
    ensures r == NoAmmo <==> InRange(p, distance) && usages == 0
    ensures r.Missed? || r.Hit? ==> r.total == hitRoll + p.hit
    ensures r.Hit? <==> InRange(p, distance) && usages != 0 && hitRoll + p.hit >= armor
    ensures r.Hit? ==> r.damage == Damage(p, rolls, resisted)
  {
    if distance > p.maxRange || distance < p.minRange then OutOfRange
    else if usages == 0 then NoAmmo
    else if hitRoll + p.hit < armor then Missed(hitRoll + p.hit)
    else Hit(hitRoll + p.hit, Damage(p, rolls, resisted))
  }

  /** The usages left after an attack with outcome `o`: an attempt past both
      gates uses one up unless usages are unlimited (negative). */
  function UsagesAfter(usages: int, o: Outcome): (r: int)
    ensures usages < 0 ==> r == usages
    ensures usages >= 0 ==> 0 <= r <= usages
    ensures r != usages <==> usages > 0 && (o.Missed? || o.Hit?)
  {
    if (o.Missed? || o.Hit?) && usages > 0 then usages - 1 else usages
  }

  class Weapon {
    var name: string
    var hit: int
    var dices: int
    var diceType: int
    var damageType: string
    var additional: int
    var minRange: real
    var maxRange: real
    /** Attacks left; -1 means unlimited. */
    var usages: int

    function Profile(): WeaponProfile
      reads this
    {
      WeaponProfile(hit, dices, diceType, damageType, additional, minRange, maxRange)
    }

    /** `Weapon.__init__(dictionary)`: absent keys take their defaults,
        additional 0, min range 0, max range 1.5 and unlimited usages. */
    constructor (config: WeaponConfig)
      ensures name == config.name && hit == config.hit && dices == config.dices
      ensures diceType == config.diceType && damageType == config.damageType
      ensures additional == (if config.additional.Some? then config.additional.value else 0)
      ensures minRange == (if config.minRange.Some? then config.minRange.value else 0.0)
      ensures maxRange == (if config.maxRange.Some? then config.maxRange.value else 1.5)
      ensures usages == (if config.usages.Some? then config.usages.value else -1)
    {
      name := config.name;
      hit := config.hit;
      dices := config.dices;
      diceType := config.diceType;
      damageType := config.damageType;
      additional := if config.additional.None? then 0 else config.additional.value;
      minRange := if config.minRange.None? then 0.0 else config.minRange.value;
      maxRange := if config.maxRange.None? then 1.5 else config.maxRange.value;
      usages := if config.usages.None? then -1 else config.usages.value;
    }

    /** `attack(pos, target)`, with `distance` standing for
        `target.calc_distance(pos)`. A hit calls the target's `change_health`
        once, with the damage negated; no other path touches the target. */
    method Attack(distance: real, target: Character, hitRoll: int, damageRolls: seq<int>)
      requires 1 <= hitRoll <= 20
      requires |damageRolls| == DiceCount(dices) && RollsOn(damageRolls, diceType)
      modifies this`usages, target`currLife
      ensures var o := Resolve(Profile(), old(usages), distance, target.armor,
                               damageType in target.resistances, hitRoll, damageRolls);
        && usages == UsagesAfter(old(usages), o)
        && target.currLife == (if o.Hit? then HealthAfter(old(target.currLife), target.maxLife, -o.damage)
                               else old(target.currLife))
    {
      if distance > maxRange || distance < minRange {
        return;
      }
      if usages == 0 {
        return;
      }
      if usages > 0 {
        usages := usages - 1;
      }
      var total := hitRoll + hit;
      if total < target.armor {
        return;
      }
      var damage := additional;
      var i := 0;
      while i < dices
        invariant 0 <= i <= |damageRolls|
        invariant damage == additional + Sum(damageRolls[..i])
      {
        assert damageRolls[..i + 1][..i] == damageRolls[..i];
        damage := damage + damageRolls[i];
        i := i + 1;
      }
      assert damageRolls[..i] == damageRolls;
      if damageType in target.resistances {
        damage := damage / 2;
      }
      target.ChangeHealth(-damage);
    }
  }

  /** Dice on a die with `sides` faces add up to at least one per die and at
      most `sides` per die. */
  lemma {:induction false} SumBounds(rolls: seq<int>, sides: int)
    requires RollsOn(rolls, sides)
    ensures |rolls| <= Sum(rolls) <= |rolls| * sides
  {
    if |rolls| > 0 {
      var front := rolls[..|rolls| - 1];
      assert RollsOn(front, sides) by {
        forall i | 0 <= i < |front| ensures 1 <= front[i] <= sides {
          assert front[i] == rolls[i];
        }
      }
      SumBounds(front, sides);
      assert |rolls| * sides == |front| * sides + sides;
    }
  }

  /** Before resistance, a hit deals between `additional + dices` and
      `additional + dices * diceType`. */
  lemma UnresistedDamageBounds(p: WeaponProfile, rolls: seq<int>)
    requires |rolls| == DiceCount(p.dices) && RollsOn(rolls, p.diceType)
    ensures p.additional + DiceCount(p.dices) <= Damage(p, rolls, false)
    ensures Damage(p, rolls, false) <= p.additional + DiceCount(p.dices) * p.diceType
  {
    SumBounds(rolls, p.diceType);
  }

  /** Both range bounds are inclusive: a target exactly at the minimum or
      the maximum range passes the range gate. */
  lemma RangeBoundsInclusive(p: WeaponProfile, usages: int, armor: int, resisted: bool,
                             hitRoll: int, rolls: seq<int>)
    requires p.minRange <= p.maxRange
    ensures Resolve(p, usages, p.minRange, armor, resisted, hitRoll, rolls) != OutOfRange
    ensures Resolve(p, usages, p.maxRange, armor, resisted, hitRoll, rolls) != OutOfRange
  {
  }

  /** A to-hit total equal to the armor is a hit. */
  lemma TieHits(p: WeaponProfile, usages: int, distance: real, resisted: bool,
                hitRoll: int, rolls: seq<int>)
    requires InRange(p, distance) && usages != 0
    ensures Resolve(p, usages, distance, hitRoll + p.hit, resisted, hitRoll, rolls).Hit?
  {
  }

  /** Positive usages drop by exactly one on every attempt past both gates,
      hit or miss; unlimited usages stay unlimited; a stopped attack uses
      nothing. */
  lemma UsagesAccounting(p: WeaponProfile, usages: int, distance: real, armor: int, resisted: bool,
                         hitRoll: int, rolls: seq<int>)
    ensures var o := Resolve(p, usages, distance, armor, resisted, hitRoll, rolls);
      && (InRange(p, distance) && usages > 0 ==> UsagesAfter(usages, o) == usages - 1)
      && (usages == -1 ==> UsagesAfter(usages, o) == -1)
      && (!InRange(p, distance) || usages == 0 ==> UsagesAfter(usages, o) == usages)
  {
  }

  /** A weapon with two usages attacks twice in range, hit or miss, and then
      can no longer attack. */
  lemma TwoUsagesThenEmpty(p: WeaponProfile, distance: real, armor: int, resisted: bool,
                           roll1: int, roll2: int, roll3: int, rolls: seq<int>)
    requires InRange(p, distance)
    ensures var o1 := Resolve(p, 2, distance, armor, resisted, roll1, rolls);
      var u1 := UsagesAfter(2, o1);
      var o2 := Resolve(p, u1, distance, armor, resisted, roll2, rolls);
      var u2 := UsagesAfter(u1, o2);
      && u1 == 1 && (o2.Missed? || o2.Hit?) && u2 == 0
      && Resolve(p, u2, distance, armor, resisted, roll3, rolls) == NoAmmo
  {
  }
}
