/** A combatant's bookkeeping (civilwar/utils/characters/character.py): the
    fields read from its configuration dict and the health update. */
module Characters {

  /** The configuration dict a character is built from. */
  datatype CharacterConfig = CharacterConfig(
    name: string,
    lifePoints: int,
    armorClass: int,
    movement: int,
    passivePerception: int,
    activeWeapon: string,
    weapons: seq<string>)

  /** The health after a change of `delta`: healing past the maximum is capped
      at the maximum, a change that would reach -2 times the maximum or below
      is ignored, and any other change is applied exactly. There is no clamp
      at -max. */
  function HealthAfter(curr: int, max: int, delta: int): (r: int)
    ensures curr + delta > max ==> r == max
    ensures curr + delta <= max && curr + delta <= -2 * max ==> r == curr
    ensures -2 * max < curr + delta <= max ==> r == curr + delta
  {
    if curr + delta > max then max
    else if curr + delta <= max * -2 then curr
    else curr + delta
  }

  /** The health range every character keeps: above -2 times the maximum and
      at most the maximum. */
  predicate HealthInRange(curr: int, max: int)
  {
    -2 * max < curr <= max
  }

  /** A change of health keeps the health in range. */
  lemma HealthAfterKeepsRange(curr: int, max: int, delta: int)
    requires HealthInRange(curr, max)
    ensures HealthInRange(HealthAfter(curr, max, delta), max)
  {
  }

  /** Damage can take the health below -max, down to just above -2 times the
      maximum: nothing stops at -max. */
  lemma NoClampAtMinusMax(max: int)
    requires max > 1
    ensures HealthAfter(0, max, -2 * max + 1) == -2 * max + 1 < -max
  {
  }

  /** A blow that would reach -2 times the maximum leaves the health as it was,
      however low it already is. */
  lemma LethalBlowIgnored(curr: int, max: int, delta: int)
    requires HealthInRange(curr, max) && delta <= -2 * max - curr
    ensures HealthAfter(curr, max, delta) == curr
  {
  }

  class Character {
    var maxLife: int
    var currLife: int
    var armor: int
    var movement: int
    var passivePerception: int
    var activeWeapon: string
    var weapons: seq<string>
    /** What the subclasses' `get_resistances()` would return: the damage
        types this character resists. */
    var resistances: seq<string>
    /** The name and map position the subclasses add (`get_name()`,
        `get_pos()`). */
    var name: string
    var posX: int
    var posY: int

    /** The character holds what the constructor stores from these
        arguments: every stat of `config`, at full health, with this name,
        position and resistances. */
    predicate BuiltFrom(config: CharacterConfig, name: string, posX: int, posY: int, resistances: seq<string>)
      reads this
    {
      && maxLife == config.lifePoints && currLife == config.lifePoints
      && armor == config.armorClass && movement == config.movement
      && passivePerception == config.passivePerception
      && activeWeapon == config.activeWeapon && weapons == config.weapons
      && this.resistances == resistances
      && this.name == name && this.posX == posX && this.posY == posY
    }

    /** `Character.__init__(dictionary)`, with what a subclass adds: a new
        character is at full health. */
    constructor (config: CharacterConfig, name: string, posX: int, posY: int, resistances: seq<string>)
      ensures maxLife == config.lifePoints && currLife == config.lifePoints
      ensures armor == config.armorClass && movement == config.movement
      ensures passivePerception == config.passivePerception
      ensures activeWeapon == config.activeWeapon && weapons == config.weapons
      ensures this.resistances == resistances
      ensures this.name == name && this.posX == posX && this.posY == posY
      ensures config.lifePoints > 0 ==> HealthInRange(currLife, maxLife)
      ensures BuiltFrom(config, name, posX, posY, resistances)
    {
      maxLife := config.lifePoints;
      currLife := config.lifePoints;
      armor := config.armorClass;
      movement := config.movement;
      passivePerception := config.passivePerception;
      activeWeapon := config.activeWeapon;
      weapons := config.weapons;
      this.resistances := resistances;
      this.name := name;
      this.posX := posX;
      this.posY := posY;
    }

    /** `change_health(health)`: only the current life changes. */
    method ChangeHealth(health: int)
      modifies this`currLife
      ensures currLife == HealthAfter(old(currLife), maxLife, health)
      ensures old(HealthInRange(currLife, maxLife)) ==> HealthInRange(currLife, maxLife)
    {
      var tmpHealth := currLife + health;
      if tmpHealth > maxLife {
        currLife := maxLife;
        return;
      }
      if tmpHealth <= maxLife * -2 {
        return;
      }
      currLife := tmpHealth;
    }
  }
}
