// Moves (pokemon_battle_system/move.py): a move descriptor whose PP counter is updated in place.
module Moves {
  import opened Common
  import opened Text
  import opened Enums

  /**
   * The entries of a move's `effect` dict that the battle reads: 'stat', 'stages', 'status'
   * and 'chance' (absent keys are None).
   */
  datatype MoveEffect = MoveEffect(
    stat: Option<string>,
    stages: Option<int>,
    status: Option<string>,
    chance: Option<real>)

  /** The field values of a Move, which is what dataclass equality compares. */
  datatype MoveValue = MoveValue(
    name: string, moveType: string, power: int, accuracy: int, pp: int, maxPp: int,
    category: MoveCategory, priority: int, effect: Option<MoveEffect>, target: string,
    flags: map<string, bool>)

  /** `t` equals one of `types` when both are lowered. */
  predicate MatchesType(t: string, types: seq<string>)
  {
    exists i :: 0 <= i < |types| && Lower(types[i]) == Lower(t)
  }

  class Move {
    const name: string
    const moveType: string
    const power: int
    const accuracy: int
    var pp: int
    const maxPp: int
    const category: MoveCategory
    const priority: int
    const effect: Option<MoveEffect>
    const target: string
    const flags: map<string, bool>

    /** Remaining uses never exceed the maximum. */
    ghost predicate Valid()
      reads this
    {
      pp <= maxPp
    }

    /** Construction (__post_init__) lowers `pp` to `max_pp` when it is larger. */
    constructor(name: string, moveType: string, power: int, accuracy: int, pp: int, maxPp: int,
                category: MoveCategory, priority: int := 0, effect: Option<MoveEffect> := None,
                target: string := "normal", flags: map<string, bool> := map[])
      ensures Valid()
      ensures pp <= maxPp ==> this.pp == pp
      ensures pp > maxPp ==> this.pp == maxPp
      ensures this.name == name && this.moveType == moveType && this.power == power
      ensures this.accuracy == accuracy && this.maxPp == maxPp && this.category == category
      ensures this.priority == priority && this.effect == effect && this.target == target
      ensures this.flags == flags
    {
      this.name := name;
      this.moveType := moveType;
      this.power := power;
      this.accuracy := accuracy;
      this.pp := pp;
      this.maxPp := maxPp;
      this.category := category;
      this.priority := priority;
      this.effect := effect;
      this.target := target;
      this.flags := flags;
      new;
      if this.pp > this.maxPp {
        this.pp := this.maxPp;
      }
    }

    /** use: spends one PP and answers True exactly when some PP is left. */
    method Use() returns (used: bool)
      modifies this
      ensures used <==> old(pp) > 0
      ensures used ==> pp == old(pp) - 1
      ensures !used ==> pp == old(pp)
      ensures old(Valid()) ==> Valid()
    {
      if pp > 0 {
        pp := pp - 1;
        return true;
      }
      return false;
    }

    /** restore_pp: back to the maximum, or up by `amount` but never past the maximum. */
    method RestorePp(amount: Option<int>)
      modifies this
      ensures amount.None? ==> pp == maxPp
      ensures amount.Some? ==> pp == Min(maxPp, old(pp) + amount.value)
      ensures Valid()
    {
      if amount.None? {
        pp := maxPp;
      } else {
        pp := Min(maxPp, pp + amount.value);
      }
    }

    function Value(): MoveValue
      reads this
    {
      MoveValue(name, moveType, power, accuracy, pp, maxPp, category, priority, effect, target, flags)
    }

    /** get_effectiveness is a placeholder that always answers neutral. */
    function GetEffectiveness(targetTypes: seq<string>): (r: real)
      ensures r == 1.0
    {
      1.0
    }

    /** is_super_effective never holds, whatever the target's types. */
    predicate IsSuperEffective(targetTypes: seq<string>)
      ensures !IsSuperEffective(targetTypes)
    {
      GetEffectiveness(targetTypes) > 1.0
    }

    /** is_not_very_effective never holds, whatever the target's types. */
    predicate IsNotVeryEffective(targetTypes: seq<string>)
      ensures !IsNotVeryEffective(targetTypes)
    {
      0.0 < GetEffectiveness(targetTypes) < 1.0
    }

    /** has_no_effect never holds, whatever the target's types. */
    predicate HasNoEffect(targetTypes: seq<string>)
      ensures !HasNoEffect(targetTypes)
    {
      GetEffectiveness(targetTypes) == 0.0
    }

    /** get_stab_multiplier: 1.5 exactly when the move's type matches a user type, ignoring case. */
    function GetStabMultiplier(userTypes: seq<string>): (r: real)
      ensures r == 1.5 <==> MatchesType(moveType, userTypes)
      ensures r == 1.0 <==> !MatchesType(moveType, userTypes)
    {
      if MatchesType(moveType, userTypes) then 1.5 else 1.0
    }
  }

  /** The bonus is applied once, even when both of the user's types match the move. */
  lemma StabNotDoubled(m: Move, t1: string, t2: string)
    requires Lower(t1) == Lower(m.moveType) && Lower(t2) == Lower(m.moveType)
    ensures m.GetStabMultiplier([t1, t2]) == 1.5
  {
    assert Lower([t1, t2][0]) == Lower(m.moveType);
  }
}
