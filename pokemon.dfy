// Combatants (pokemon_battle_system/pokemon.py): a mutable record whose HP, stat stages,
// status and volatile flags change in place during a battle.
module Pokemons {
  import opened Common
  import opened Text
  import opened Enums
  import opened Moves
  import Items
  import Abilities

  /**
   * An element of `volatile_status`: a VolatileStatus member, or the string 'toxic_counter'
   * that the end-of-turn toxic tick adds to the same set.
   */
  datatype VolatileEntry = Flag(flag: VolatileStatus) | ToxicCounterTag

  /** The exceptions raised by the stat accessors. */
  datatype PokemonError =
    | InvalidStat(stat: string)      // ValueError from modify_stat_stage
    | NotANumber(attribute: string)  // TypeError: get_stat on a non-integer attribute

  /** The seven keys of `stat_stages`. */
  const StageNames: set<string> :=
    {"attack", "defense", "special_attack", "special_defense", "speed", "accuracy", "evasion"}

  /** The stage map every combatant is built with. */
  function InitialStages(): (m: map<string, int>)
    ensures m.Keys == StageNames
    ensures forall k :: k in m ==> m[k] == 0
  {
    map["attack" := 0, "defense" := 0, "special_attack" := 0, "special_defense" := 0,
        "speed" := 0, "accuracy" := 0, "evasion" := 0]
  }

  /**
   * Names of attributes that exist on a Pokemon but hold no integer (the non-integer
   * fields and the methods): get_stat on them fails with a TypeError.
   */
  const NonNumericAttributes: set<string> :=
    {"name", "primary_type", "secondary_type", "moves", "ability", "item", "status",
     "volatile_status", "stat_stages", "get_stat", "take_damage", "heal", "is_fainted",
     "has_type", "get_types", "add_volatile_status", "remove_volatile_status",
     "has_volatile_status", "modify_stat_stage", "reset_stat_stages", "get_move",
     "has_move", "get_hp_bar"}

  /** Maximum HP from base HP and level, as computed once at construction. */
  function MaxHpFor(baseHp: int, level: int): int
  {
    (2 * baseHp) * level / 100 + level + 10
  }

  /** A non-HP stat before stages: floor(2 * base * level / 100) + 5. */
  function StatFromBase(base: int, level: int): int
  {
    (2 * base) * level / 100 + 5
  }

  /** The stage multiplier: (2+s)/2 for a raised stage, 2/(2-s) for a lowered one, floored. */
  function StageScale(value: int, stage: int): int
  {
    if stage > 0 then value * (2 + stage) / 2
    else if stage < 0 then value * 2 / (2 - stage)
    else value
  }

  /** A stage value moved into [-6, 6]. */
  function ClampStage(x: int): (r: int)
    ensures -6 <= r <= 6
    ensures -6 <= x <= 6 ==> r == x
    ensures x < -6 ==> r == -6
    ensures x > 6 ==> r == 6
  {
    Max(-6, Min(6, x))
  }

  /** The same keys, every stage back to 0. */
  function ZeroStages(m: map<string, int>): (r: map<string, int>)
    ensures r.Keys == m.Keys
    ensures forall k :: k in r ==> r[k] == 0
  {
    map k | k in m :: 0
  }

  ghost predicate StagesInRange(m: map<string, int>)
  {
    forall k :: k in m ==> -6 <= m[k] <= 6
  }

  /** The field values of a Pokemon, which is what dataclass equality compares. */
  datatype PokemonValue = PokemonValue(
    name: string, level: int, hp: int, attack: int, defense: int, specialAttack: int,
    specialDefense: int, speed: int, primaryType: string, secondaryType: string,
    moves: seq<MoveValue>, ability: Option<Abilities.Ability>, item: Option<Items.Item>,
    status: StatusCondition, volatile: set<VolatileEntry>, statStages: map<string, int>,
    currentHp: int, maxHp: int)

  function MoveValues(ms: seq<Move>): (r: seq<MoveValue>)
    reads ms
    ensures |r| == |ms|
  {
    if ms == [] then [] else [ms[0].Value()] + MoveValues(ms[1..])
  }

  class Pokemon {
    const name: string
    const level: int
    const hp: int
    const attack: int
    const defense: int
    const specialAttack: int
    const specialDefense: int
    const speed: int
    const primaryType: string
    const secondaryType: string
    const moves: seq<Move>
    const ability: Option<Abilities.Ability>
    const item: Option<Items.Item>
    var status: StatusCondition
    var volatile: set<VolatileEntry>
    var statStages: map<string, int>
    var currentHp: int
    const maxHp: int
    /** The `toxic_counter` attribute; 0 until the first toxic tick creates it. */
    var toxicCounter: int

    /** __post_init__: maximum HP from the formula, full HP, and the seven stages at 0. */
    constructor(name: string, level: int := 50, hp: int := 0, attack: int := 0,
                defense: int := 0, specialAttack: int := 0, specialDefense: int := 0,
                speed: int := 0, primaryType: string := "", secondaryType: string := "",
                moves: seq<Move> := [], ability: Option<Abilities.Ability> := None,
                item: Option<Items.Item> := None, status: StatusCondition := NoStatus,
                volatile: set<VolatileEntry> := {})
      ensures maxHp == MaxHpFor(hp, level) && currentHp == maxHp
      ensures statStages == InitialStages()
      ensures this.status == status && this.volatile == volatile && toxicCounter == 0
      ensures this.name == name && this.level == level && this.hp == hp
      ensures this.attack == attack && this.defense == defense
      ensures this.specialAttack == specialAttack && this.specialDefense == specialDefense
      ensures this.speed == speed && this.primaryType == primaryType
      ensures this.secondaryType == secondaryType && this.moves == moves
      ensures this.ability == ability && this.item == item
    {
      this.name := name;
      this.level := level;
      this.hp := hp;
      this.attack := attack;
      this.defense := defense;
      this.specialAttack := specialAttack;
      this.specialDefense := specialDefense;
      this.speed := speed;
      this.primaryType := primaryType;
      this.secondaryType := secondaryType;
      this.moves := moves;
      this.ability := ability;
      this.item := item;
      this.status := status;
      this.volatile := volatile;
      this.maxHp := MaxHpFor(hp, level);
      this.currentHp := MaxHpFor(hp, level);
      this.statStages := InitialStages();
      this.toxicCounter := 0;
    }

    function Value(): PokemonValue
      reads this, moves
    {
      PokemonValue(name, level, hp, attack, defense, specialAttack, specialDefense, speed,
                   primaryType, secondaryType, MoveValues(moves), ability, item, status,
                   volatile, statStages, currentHp, maxHp)
    }

    /** getattr(self, attr, 0) as get_stat uses it: integer attributes, else 0 or an error. */
    function Attribute(attr: string): (r: Result<int, PokemonError>)
      reads this
      ensures r.Err? <==> attr in NonNumericAttributes
    {
      if attr == "hp" then Ok(hp)
      else if attr == "attack" then Ok(attack)
      else if attr == "defense" then Ok(defense)
      else if attr == "special_attack" then Ok(specialAttack)
      else if attr == "special_defense" then Ok(specialDefense)
      else if attr == "speed" then Ok(speed)
      else if attr == "level" then Ok(level)
      else if attr == "current_hp" then Ok(currentHp)
      else if attr == "max_hp" then Ok(maxHp)
      else if attr == "toxic_counter" then Ok(toxicCounter)
      else if attr in NonNumericAttributes then Err(NotANumber(attr))
      else Ok(0)
    }

    /**
     * get_stat: current HP for 'hp'; otherwise the level formula on the attribute, scaled by
     * the stat's stage (0 when it has none) and never below 1.
     */
    function GetStat(statName: string): (r: Result<int, PokemonError>)
      reads this
      ensures statName == "hp" ==> r == Ok(currentHp)
      ensures r.Err? <==> statName in NonNumericAttributes
      ensures statName != "hp" && r.Ok? ==> r.value >= 1
    {
      if statName == "hp" then Ok(currentHp)
      else match Attribute(statName)
        case Err(e) => Err(e)
        case Ok(base) =>
          var stage := if statName in statStages then statStages[statName] else 0;
          Ok(Max(1, StageScale(StatFromBase(base, level), stage)))
    }

    /** take_damage: HP minus `amount`, kept within [0, max_hp]. */
    method TakeDamage(amount: int)
      modifies this`currentHp
      ensures currentHp == Max(0, Min(old(currentHp) - amount, maxHp))
      ensures maxHp >= 0 ==> 0 <= currentHp <= maxHp
      ensures amount >= 0 && 0 <= old(currentHp) <= maxHp ==> currentHp <= old(currentHp)
    {
      currentHp := Max(0, Min(currentHp - amount, maxHp));
    }

    /** heal: HP raised by `amount` up to max_hp; the answer is the change actually made. */
    method Heal(amount: int) returns (healed: int)
      modifies this`currentHp
      ensures currentHp == Min(maxHp, old(currentHp) + amount)
      ensures healed == currentHp - old(currentHp)
      ensures amount >= 0 && old(currentHp) <= maxHp ==> 0 <= healed <= amount
      ensures currentHp <= maxHp
    {
      var oldHp := currentHp;
      currentHp := Min(maxHp, currentHp + amount);
      healed := currentHp - oldHp;
    }

    /** is_fainted: no HP left; a combatant with HP above 0 is exactly one that has not fainted. */
    predicate IsFainted()
      reads this
      ensures !IsFainted() <==> currentHp > 0
    {
      currentHp <= 0
    }

    /** has_type: the primary or the non-empty secondary type, ignoring case. */
    predicate HasType(typeName: string)
      ensures Lower(primaryType) == Lower(typeName) ==> HasType(typeName)
      ensures secondaryType == "" ==> (HasType(typeName) <==> Lower(primaryType) == Lower(typeName))
    {
      Lower(primaryType) == Lower(typeName)
        || (secondaryType != "" && Lower(secondaryType) == Lower(typeName))
    }

    /** get_types: the primary type, then the secondary one when it is non-empty. */
    function GetTypes(): (r: seq<string>)
      ensures 1 <= |r| <= 2 && r[0] == primaryType
      ensures |r| == 2 <==> secondaryType != ""
      ensures |r| == 2 ==> r[1] == secondaryType
    {
      if secondaryType != "" then [primaryType, secondaryType] else [primaryType]
    }

    /** has_volatile_status: membership of the flag; the toxic counter tag is never asked for. */
    predicate HasVolatileStatus(s: VolatileStatus)
      reads this
      ensures HasVolatileStatus(s) <==> Flag(s) in volatile - {ToxicCounterTag}
    {
      Flag(s) in volatile
    }

    /** add_volatile_status: True exactly when the flag was absent; the flag is then present. */
    method AddVolatileStatus(s: VolatileStatus) returns (added: bool)
      modifies this`volatile
      ensures added <==> !old(HasVolatileStatus(s))
      ensures volatile == old(volatile) + {Flag(s)}
      ensures HasVolatileStatus(s)
    {
      if Flag(s) !in volatile {
        volatile := volatile + {Flag(s)};
        return true;
      }
      return false;
    }

    /** remove_volatile_status: True exactly when the flag was present; it is then absent. */
    method RemoveVolatileStatus(s: VolatileStatus) returns (removed: bool)
      modifies this`volatile
      ensures removed <==> old(HasVolatileStatus(s))
      ensures volatile == old(volatile) - {Flag(s)}
      ensures !HasVolatileStatus(s)
    {
      if Flag(s) in volatile {
        volatile := volatile - {Flag(s)};
        return true;
      }
      return false;
    }

    /**
     * modify_stat_stage: an unknown stat raises and changes nothing; otherwise that stage
     * becomes old + amount clamped to [-6, 6], is returned, and no other stage changes.
     */
    method ModifyStatStage(stat: string, amount: int) returns (r: Result<int, PokemonError>)
      modifies this`statStages
      ensures stat !in old(statStages) ==> r == Err(InvalidStat(stat)) && statStages == old(statStages)
      ensures stat in old(statStages) ==> r == Ok(ClampStage(old(statStages)[stat] + amount))
      ensures r.Ok? ==> statStages == old(statStages)[stat := r.value]
      ensures statStages.Keys == old(statStages).Keys
      ensures forall k :: k in statStages && k != stat ==> statStages[k] == old(statStages)[k]
      ensures StagesInRange(old(statStages)) ==> StagesInRange(statStages)
    {
      if stat !in statStages {
        return Err(InvalidStat(stat));
      }
      var newStage := ClampStage(statStages[stat] + amount);
      statStages := statStages[stat := newStage];
      return Ok(newStage);
    }

    /** reset_stat_stages: every existing stage set to 0, one key at a time. */
    method ResetStatStages()
      modifies this`statStages
      ensures statStages == ZeroStages(old(statStages))
    {
      var pending := statStages.Keys;
      while pending != {}
        invariant pending <= statStages.Keys
        invariant statStages.Keys == old(statStages).Keys
        invariant forall k :: k in statStages && k !in pending ==> statStages[k] == 0
        invariant forall k :: k in pending ==> statStages[k] == old(statStages)[k]
        decreases pending
      {
        var k :| k in pending;
        statStages := statStages[k := 0];
        pending := pending - {k};
      }
    }

    predicate NameMatches(i: nat, moveName: string)
      requires i < |moves|
    {
      Lower(moves[i].name) == Lower(moveName)
    }

    /** `any(...)` over the moves asked by position or by member. */
    lemma SomeMoveNamed(moveName: string)
      ensures (exists i :: 0 <= i < |moves| && NameMatches(i, moveName))
              <==> exists m :: m in moves && Lower(m.name) == Lower(moveName)
    {
      if i :| 0 <= i < |moves| && NameMatches(i, moveName) {
        assert moves[i] in moves;
      }
      if m :| m in moves && Lower(m.name) == Lower(moveName) {
        var i :| 0 <= i < |moves| && moves[i] == m;
        assert NameMatches(i, moveName);
      }
    }

    /** has_move: some known move has this name, ignoring case. */
    predicate HasMove(moveName: string)
      ensures HasMove(moveName) <==> exists m :: m in moves && Lower(m.name) == Lower(moveName)
    {
      SomeMoveNamed(moveName);
      exists i :: 0 <= i < |moves| && NameMatches(i, moveName)
    }

    /** get_move: the first known move with this name (ignoring case), or None. */
    method GetMove(moveName: string) returns (r: Option<Move>)
      ensures r.None? <==> !HasMove(moveName)
      ensures r.Some? ==> exists i :: 0 <= i < |moves| && moves[i] == r.value
                            && NameMatches(i, moveName)
                            && forall j :: 0 <= j < i ==> !NameMatches(j, moveName)
    {
      var i := 0;
      while i < |moves|
        invariant 0 <= i <= |moves|
        invariant forall j :: 0 <= j < i ==> !NameMatches(j, moveName)
      {
        if Lower(moves[i].name) == Lower(moveName) {
          assert NameMatches(i, moveName);
          return Some(moves[i]);
        }
        i := i + 1;
      }
      return None;
    }
  }

  /** has_type agrees with get_types: the name matches one of the listed types, ignoring case. */
  lemma HasTypeMatchesGetTypes(p: Pokemon, typeName: string)
    ensures p.HasType(typeName) <==> MatchesType(typeName, p.GetTypes())
  {
    var types := p.GetTypes();
    if Lower(p.primaryType) == Lower(typeName) {
      assert Lower(types[0]) == Lower(typeName);
    }
    if p.secondaryType != "" && Lower(p.secondaryType) == Lower(typeName) {
      assert Lower(types[1]) == Lower(typeName);
    }
  }

  /** Fainting is HP at or below 0, which under the HP clamp means exactly 0. */
  lemma FaintedMeansZeroHp(p: Pokemon)
    requires 0 <= p.currentHp
    ensures p.IsFainted() <==> p.currentHp == 0
  {
  }

  /** A freshly built combatant at level 1 or more with non-negative base HP is not fainted. */
  lemma MaxHpAtLeastEleven(baseHp: int, level: int)
    requires baseHp >= 0 && level >= 1
    ensures MaxHpFor(baseHp, level) >= 11
  {
  }

  /** Raising a stage by one never lowers a non-negative stat. */
  lemma StageScaleMonotone(v: int, s: int)
    requires v >= 0
    ensures StageScale(v, s) <= StageScale(v, s + 1)
  {
    if s >= 1 {
      MulMonotone(v, 2 + s, 3 + s);
      DivMonotone(v * (2 + s), v * (3 + s), 2);
    } else if s == 0 {
      StageScaleDirection(v, 1);
    } else if s == -1 {
      StageScaleDirection(v, -1);
    } else {
      DivLargerDenominator(v * 2, 1 - s);
    }
  }

  /** A raised stage never lowers a non-negative stat and a lowered one never raises it. */
  lemma StageScaleDirection(v: int, s: int)
    requires v >= 0
    ensures s > 0 ==> StageScale(v, s) >= v
    ensures s < 0 ==> StageScale(v, s) <= v
    ensures StageScale(v, 0) == v
  {
    if s > 0 {
      MulMonotone(v, 2, 2 + s);
      DivMonotone(v * 2, v * (2 + s), 2);
      MulDivCancel(v, 2);
    } else if s < 0 {
      MulMonotone(v, 2, 2 - s);
      DivMonotone(v * 2, v * (2 - s), 2 - s);
      MulDivCancel(v, 2 - s);
    }
  }

  /** Stage +2 doubles a stat and stage -2 halves it (floored). */
  lemma StageTwoDoublesOrHalves(v: int)
    ensures StageScale(v, 2) == 2 * v
    ensures StageScale(v, -2) == v / 2
  {
  }

  /** Zeroing the stages twice is zeroing them once. */
  lemma ZeroStagesIdempotent(m: map<string, int>)
    ensures ZeroStages(ZeroStages(m)) == ZeroStages(m)
  {
  }

  /** Every object a combatant's structural value depends on: itself and its moves. */
  function Footprint(ps: seq<Pokemon>): set<object>
  {
    (set p | p in ps :: p as object) + (set p, m | p in ps && m in p.moves :: m as object)
  }

  lemma FootprintSubset(a: seq<Pokemon>, b: seq<Pokemon>)
    requires forall p :: p in a ==> p in b
    ensures Footprint(a) <= Footprint(b)
  {
  }

  /** Dataclass `==` between two combatants: every field equal. */
  predicate SameAs(a: Pokemon, b: Pokemon)
    reads a, a.moves, b, b.moves
  {
    a.Value() == b.Value()
  }

  /** The filter kept by both get_available_pokemon and _select_replacement. */
  predicate AliveAndDistinct(p: Pokemon, other: Pokemon?)
    reads p, p.moves, if other == null then {} else {other}, if other == null then [] else other.moves
  {
    p.currentHp > 0 && !(other != null && SameAs(p, other))
  }

  function OptionalSeq(p: Pokemon?): seq<Pokemon>
  {
    if p == null then [] else [p]
  }

  /**
   * The members of `ps`, in order, that still have HP and are not equal to `other`
   * (a None `other` excludes nothing).
   */
  function AliveOthers(ps: seq<Pokemon>, other: Pokemon?): (r: seq<Pokemon>)
    reads Footprint(ps + OptionalSeq(other))
    ensures |r| <= |ps|
    ensures forall p :: p in r ==> p in ps && AliveAndDistinct(p, other)
    ensures forall p :: p in ps && AliveAndDistinct(p, other) ==> p in r
    decreases |ps|
  {
    if ps == [] then []
    else
      var all := ps + OptionalSeq(other);
      assert ps[0] in all;
      assert forall m :: m in ps[0].moves ==> m in Footprint(all);
      assert other != null ==> other in all && forall m :: m in other.moves ==> m in Footprint(all);
      FootprintSubset(ps[1..] + OptionalSeq(other), all);
      (if AliveAndDistinct(ps[0], other) then [ps[0]] else []) + AliveOthers(ps[1..], other)
  }

  /** A single member is kept exactly when it passes the filter. */
  lemma AliveOthersSingle(p: Pokemon, other: Pokemon?)
    ensures AliveOthers([p], other) == if AliveAndDistinct(p, other) then [p] else []
  {
    assert [p][1..] == [];
  }

  /**
   * The filter works member by member: the survivors of a joined list are the survivors
   * of its first part followed by those of its second part. With AliveOthersSingle this
   * fixes the order (party order) and the multiplicity (a member listed twice is kept twice).
   */
  lemma {:induction false} AliveOthersConcat(a: seq<Pokemon>, b: seq<Pokemon>, other: Pokemon?)
    ensures AliveOthers(a + b, other) == AliveOthers(a, other) + AliveOthers(b, other)
    decreases |a|
  {
    if a == [] {
      assert a + b == b;
    } else {
      assert (a + b)[0] == a[0];
      assert (a + b)[1..] == a[1..] + b;
      AliveOthersConcat(a[1..], b, other);
    }
  }

  /**
   * A member that passes the filter sits in the result right after the survivors of the
   * members before it.
   */
  lemma AliveOthersAt(ps: seq<Pokemon>, other: Pokemon?, i: nat)
    requires i < |ps| && AliveAndDistinct(ps[i], other)
    ensures |AliveOthers(ps[..i], other)| < |AliveOthers(ps, other)|
    ensures AliveOthers(ps, other)[|AliveOthers(ps[..i], other)|] == ps[i]
  {
    assert ps == ps[..i] + ps[i..];
    AliveOthersConcat(ps[..i], ps[i..], other);
    assert ps[i..][0] == ps[i];
  }

  /**
   * Of two members that both pass the filter, the earlier one comes first in the result:
   * the survivors keep the list's order.
   */
  lemma AliveOthersKeepsOrder(ps: seq<Pokemon>, other: Pokemon?, i: nat, j: nat)
    requires i < j < |ps| && AliveAndDistinct(ps[i], other) && AliveAndDistinct(ps[j], other)
    ensures exists x, y :: 0 <= x < y < |AliveOthers(ps, other)|
              && AliveOthers(ps, other)[x] == ps[i] && AliveOthers(ps, other)[y] == ps[j]
  {
    AliveOthersAt(ps, other, i);
    AliveOthersAt(ps, other, j);
    var front := ps[..j];
    assert front[..i] == ps[..i] && front[i] == ps[i];
    AliveOthersAt(front, other, i);
    var x, y := |AliveOthers(ps[..i], other)|, |AliveOthers(front, other)|;
    assert AliveOthers(ps, other)[x] == ps[i] && AliveOthers(ps, other)[y] == ps[j];
  }

  /** The structural values of a sequence of combatants, in order. */
  function Values(ps: seq<Pokemon>): (r: seq<PokemonValue>)
    reads Footprint(ps)
    ensures |r| == |ps|
    decreases |ps|
  {
    if ps == [] then []
    else
      assert ps[0] in ps;
      assert forall m :: m in ps[0].moves ==> m in Footprint(ps);
      FootprintSubset(ps[1..], ps);
      [ps[0].Value()] + Values(ps[1..])
  }

  /**
   * The position of the first element equal to `v` (what `in` and `list.remove` look
   * for), or None when there is none.
   */
  function IndexOf(vs: seq<PokemonValue>, v: PokemonValue): (r: Option<nat>)
    ensures r.None? <==> v !in vs
    ensures r.Some? ==> r.value < |vs| && vs[r.value] == v
                        && forall j :: 0 <= j < r.value ==> vs[j] != v
  {
    if vs == [] then None
    else if vs[0] == v then Some(0)
    else match IndexOf(vs[1..], v)
      case None => None
      case Some(i) => Some(i + 1)
  }

  /** Position `i` of the values is the value of the combatant at position `i`. */
  lemma {:induction false} ValuesAt(ps: seq<Pokemon>, i: nat)
    requires i < |ps|
    ensures Values(ps)[i] == ps[i].Value()
    decreases i
  {
    if i > 0 {
      ValuesAt(ps[1..], i - 1);
    }
  }
}
