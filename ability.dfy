// Abilities (pokemon_battle_system/ability.py): a record of optional trigger callbacks and
// the registry of the three predefined abilities.
module Abilities {
  import opened Common
  import opened Text

  /**
   * The callbacks the registry attaches, as tags: the Python code stores lambdas.
   * `Callback(id)` stands for any other callable a caller may attach.
   */
  datatype AbilityHook =
    | IntimidateLowerAttack
    | LevitateGroundImmunity
    | SpeedBoostRaiseSpeed
    | Callback(id: nat)

  datatype Ability = Ability(
    name: string,
    description: string,
    onStart: Option<AbilityHook>,
    onSwitchIn: Option<AbilityHook>,
    onDamage: Option<AbilityHook>,
    onAfterMove: Option<AbilityHook>,
    onBeforeMove: Option<AbilityHook>,
    onFaint: Option<AbilityHook>,
    onWeatherChange: Option<AbilityHook>,
    onTerrainChange: Option<AbilityHook>,
    onStatusApply: Option<AbilityHook>,
    onStatChange: Option<AbilityHook>)

  /** create_ability: every trigger not passed is None. */
  function CreateAbility(
    name: string, description: string,
    onStart: Option<AbilityHook> := None, onSwitchIn: Option<AbilityHook> := None,
    onDamage: Option<AbilityHook> := None, onAfterMove: Option<AbilityHook> := None,
    onBeforeMove: Option<AbilityHook> := None, onFaint: Option<AbilityHook> := None,
    onWeatherChange: Option<AbilityHook> := None, onTerrainChange: Option<AbilityHook> := None,
    onStatusApply: Option<AbilityHook> := None, onStatChange: Option<AbilityHook> := None): (ability: Ability)
    ensures ability.name == name && ability.description == description
    ensures ability.onStart == onStart && ability.onSwitchIn == onSwitchIn
    ensures ability.onDamage == onDamage && ability.onAfterMove == onAfterMove
    ensures ability.onBeforeMove == onBeforeMove && ability.onFaint == onFaint
    ensures ability.onWeatherChange == onWeatherChange && ability.onTerrainChange == onTerrainChange
    ensures ability.onStatusApply == onStatusApply && ability.onStatChange == onStatChange
  {
    Ability(name, description, onStart, onSwitchIn, onDamage, onAfterMove, onBeforeMove,
            onFaint, onWeatherChange, onTerrainChange, onStatusApply, onStatChange)
  }

  const Intimidate: Ability :=
    CreateAbility("Intimidate", "Lowers the foe's Attack stat when the Pok\U{e9}mon enters battle.",
                  onSwitchIn := Some(IntimidateLowerAttack))

  const Levitate: Ability :=
    CreateAbility("Levitate", "Gives immunity to Ground-type moves.",
                  onDamage := Some(LevitateGroundImmunity))

  const SpeedBoost: Ability :=
    CreateAbility("Speed Boost", "The Pok\U{e9}mon's Speed stat is raised at the end of each turn.",
                  onAfterMove := Some(SpeedBoostRaiseSpeed))

  /** ABILITIES: the registry, keyed by lower-case name with underscores. */
  const Registry: map<string, Ability> :=
    map["intimidate" := Intimidate, "levitate" := Levitate, "speed_boost" := SpeedBoost]

  /** Levitate's on_damage: a Ground move (any letter case) deals nothing, any other move its damage. */
  function LevitateOnDamage(moveType: string, damage: int): (r: int)
    ensures Lower(moveType) == "ground" ==> r == 0
    ensures Lower(moveType) != "ground" ==> r == damage
  {
    if Lower(moveType) == "ground" then 0 else damage
  }

  /** The rule depends on the move type only up to letter case. */
  lemma LevitateIgnoresCase(moveType: string, damage: int)
    ensures LevitateOnDamage(Lower(moveType), damage) == LevitateOnDamage(moveType, damage)
  {
    LowerIdempotent(moveType);
  }

  /** get_ability: the name is lowered (spaces are kept) and looked up; unknown names give None. */
  function GetAbility(name: string): (r: Option<Ability>)
    ensures r.Some? <==> Lower(name) in Registry
    ensures r.Some? ==> r.value == Registry[Lower(name)]
  {
    var key := Lower(name);
    if key in Registry then Some(Registry[key]) else None
  }

  /** The registry holds exactly the three predefined abilities. */
  lemma RegistryKeys()
    ensures Registry.Keys == {"intimidate", "levitate", "speed_boost"}
    ensures Registry["levitate"].onDamage == Some(LevitateGroundImmunity)
  {
  }

  /** Lookup ignores letter case. */
  lemma GetAbilityIgnoresCase(name: string)
    ensures GetAbility(Lower(name)) == GetAbility(name)
  {
    LowerIdempotent(name);
  }

  /** Spaces are not rewritten: the display name "Speed Boost" is not found, "speed_boost" is. */
  lemma SpeedBoostNeedsUnderscore()
    ensures GetAbility("Speed Boost") == None
    ensures GetAbility("speed_boost") == Some(SpeedBoost)
    ensures GetAbility("LEVITATE") == Some(Levitate)
  {
    assert Lower("Speed Boost") == "speed boost";
    assert Lower("speed_boost") == "speed_boost";
    assert Lower("LEVITATE") == "levitate";
  }
}
