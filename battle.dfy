// The battle resolver (pokemon_battle_system/battle.py): the rules of a turn as functions,
// and a Battle object whose turn counter, log and combatants change in place.
module Battles {
  import opened Common
  import opened Text
  import opened Enums
  import opened Moves
  import opened Pokemons

  // ---------------------------------------------------------------------------------------
  // Console colours used in the log (colorama's Fore.* and Style.RESET_ALL).

  const Esc: char := 27 as char
  const Blue: string := [Esc] + "[34m"
  const Red: string := [Esc] + "[31m"
  const Cyan: string := [Esc] + "[36m"
  const Yellow: string := [Esc] + "[33m"
  const ResetAll: string := [Esc] + "[0m"

  /** The exceptions a move effect can raise, which end the battle. */
  datatype BattleError =
    | MissingStages                   // KeyError: a 'stat' effect without 'stages'
    | StageRejected(e: PokemonError)  // ValueError from modify_stat_stage
    | UnknownStatus(value: string)    // ValueError from StatusCondition(value)

  /** One side of the field: its conditions and screen counters. */
  datatype SideState = SideState(conditions: set<SideCondition>, reflect: int, lightScreen: int,
                                 auroraVeil: int)

  const InitialSides: map<string, SideState> :=
    map["p1" := SideState({}, 0, 0, 0), "p2" := SideState({}, 0, 0, 0)]

  // ---------------------------------------------------------------------------------------
  // Type effectiveness.

  /** A chart entry: the chart holds only immunities, halvings and doublings. */
  datatype Multiplier = Immune | Half | Double

  function MultiplierValue(m: Multiplier): (r: real)
    ensures r == 0.0 || r == 0.5 || r == 2.0
  {
    match m
    case Immune => 0.0
    case Half => 0.5
    case Double => 2.0
  }

  /** The eighteen types that have a row in the chart, in the chart's order. */
  datatype PokemonType =
    NormalType | FireType | WaterType | ElectricType | GrassType | IceType | FightingType | PoisonType | GroundType
    | FlyingType | PsychicType | BugType | RockType | GhostType | DragonType | DarkType | SteelType | FairyType

  /** The lower-case key under which the chart files each type. */
  function TypeName(t: PokemonType): string
  {
    match t
    case NormalType => "normal"
    case FireType => "fire"
    case WaterType => "water"
    case ElectricType => "electric"
    case GrassType => "grass"
    case IceType => "ice"
    case FightingType => "fighting"
    case PoisonType => "poison"
    case GroundType => "ground"
    case FlyingType => "flying"
    case PsychicType => "psychic"
    case BugType => "bug"
    case RockType => "rock"
    case GhostType => "ghost"
    case DragonType => "dragon"
    case DarkType => "dark"
    case SteelType => "steel"
    case FairyType => "fairy"
  }

  /**
   * type_chart as a table: the entry for a move of type `attacking` against a defending type,
   * None where the inner dict has no key (the source then leaves the product unchanged).
   */
  function ChartEntry(attacking: PokemonType, defending: PokemonType): Option<Multiplier>
  {
    match attacking
    case NormalType =>
      (match defending
      case RockType => Some(Half)
      case GhostType => Some(Immune)
      case SteelType => Some(Half)
      case _ => None)
    case FireType =>
      (match defending
      case FireType => Some(Half)
      case WaterType => Some(Half)
      case GrassType => Some(Double)
      case IceType => Some(Double)
      case BugType => Some(Double)
      case RockType => Some(Half)
      case DragonType => Some(Half)
      case SteelType => Some(Double)
      case _ => None)
    case WaterType =>
      (match defending
      case FireType => Some(Double)
      case WaterType => Some(Half)
      case GrassType => Some(Half)
      case GroundType => Some(Double)
      case RockType => Some(Double)
      case DragonType => Some(Half)
      case _ => None)
    case ElectricType =>
      (match defending
      case WaterType => Some(Double)
      case ElectricType => Some(Half)
      case GrassType => Some(Half)
      case GroundType => Some(Immune)
      case FlyingType => Some(Double)
      case DragonType => Some(Half)
      case _ => None)
    case GrassType =>
      (match defending
      case FireType => Some(Half)
      case WaterType => Some(Double)
      case GrassType => Some(Half)
      case PoisonType => Some(Half)
      case GroundType => Some(Double)
      case FlyingType => Some(Half)
      case BugType => Some(Half)
      case RockType => Some(Double)
      case DragonType => Some(Half)
      case SteelType => Some(Half)
      case _ => None)
    case IceType =>
      (match defending
      case FireType => Some(Half)
      case WaterType => Some(Half)
      case GrassType => Some(Double)
      case IceType => Some(Half)
      case GroundType => Some(Double)
      case FlyingType => Some(Double)
      case DragonType => Some(Double)
      case SteelType => Some(Half)
      case _ => None)
    case FightingType =>
      (match defending
      case NormalType => Some(Double)
      case IceType => Some(Double)
      case PoisonType => Some(Half)
      case FlyingType => Some(Half)
      case PsychicType => Some(Half)
      case BugType => Some(Half)
      case RockType => Some(Double)
      case GhostType => Some(Immune)
      case DarkType => Some(Double)
      case SteelType => Some(Double)
      case FairyType => Some(Half)
      case _ => None)
    case PoisonType =>
      (match defending
      case GrassType => Some(Double)
      case PoisonType => Some(Half)
      case GroundType => Some(Half)
      case RockType => Some(Half)
      case GhostType => Some(Half)
      case SteelType => Some(Immune)
      case FairyType => Some(Double)
      case _ => None)
    case GroundType =>
      (match defending
      case FireType => Some(Double)
      case ElectricType => Some(Double)
      case GrassType => Some(Half)
      case PoisonType => Some(Double)
      case FlyingType => Some(Immune)
      case BugType => Some(Half)
      case RockType => Some(Double)
      case SteelType => Some(Double)
      case _ => None)
    case FlyingType =>
      (match defending
      case ElectricType => Some(Half)
      case GrassType => Some(Double)
      case FightingType => Some(Double)
      case BugType => Some(Double)
      case RockType => Some(Half)
      case SteelType => Some(Half)
      case _ => None)
    case PsychicType =>
      (match defending
      case FightingType => Some(Double)
      case PoisonType => Some(Double)
      case PsychicType => Some(Half)
      case DarkType => Some(Immune)
      case SteelType => Some(Half)
      case _ => None)
    case BugType =>
      (match defending
      case FireType => Some(Half)
      case GrassType => Some(Double)
      case FightingType => Some(Half)
      case PoisonType => Some(Half)
      case FlyingType => Some(Half)
      case PsychicType => Some(Double)
      case GhostType => Some(Half)
      case DarkType => Some(Double)
      case SteelType => Some(Half)
      case FairyType => Some(Half)
      case _ => None)
    case RockType =>
      (match defending
      case FireType => Some(Double)
      case IceType => Some(Double)
      case FightingType => Some(Half)
      case GroundType => Some(Half)
      case FlyingType => Some(Double)
      case BugType => Some(Double)
      case SteelType => Some(Half)
      case _ => None)
    case GhostType =>
      (match defending
      case NormalType => Some(Immune)
      case PsychicType => Some(Double)
      case GhostType => Some(Double)
      case DarkType => Some(Half)
      case _ => None)
    case DragonType =>
      (match defending
      case DragonType => Some(Double)
      case SteelType => Some(Half)
      case FairyType => Some(Immune)
      case _ => None)
    case DarkType =>
      (match defending
      case FightingType => Some(Half)
      case PsychicType => Some(Double)
      case GhostType => Some(Double)
      case DarkType => Some(Half)
      case FairyType => Some(Half)
      case _ => None)
    case SteelType =>
      (match defending
      case FireType => Some(Half)
      case WaterType => Some(Half)
      case ElectricType => Some(Half)
      case IceType => Some(Double)
      case RockType => Some(Double)
      case SteelType => Some(Half)
      case FairyType => Some(Double)
      case _ => None)
    case FairyType =>
      (match defending
      case FireType => Some(Half)
      case FightingType => Some(Double)
      case PoisonType => Some(Half)
      case DragonType => Some(Double)
      case DarkType => Some(Double)
      case SteelType => Some(Half)
      case _ => None)
  }

  /** `name in type_chart`, and which type's row it selects. */
  function ChartKey(name: string): Option<PokemonType>
  {
    if name == "normal" then Some(NormalType)
    else if name == "fire" then Some(FireType)
    else if name == "water" then Some(WaterType)
    else if name == "electric" then Some(ElectricType)
    else if name == "grass" then Some(GrassType)
    else if name == "ice" then Some(IceType)
    else if name == "fighting" then Some(FightingType)
    else if name == "poison" then Some(PoisonType)
    else if name == "ground" then Some(GroundType)
    else if name == "flying" then Some(FlyingType)
    else if name == "psychic" then Some(PsychicType)
    else if name == "bug" then Some(BugType)
    else if name == "rock" then Some(RockType)
    else if name == "ghost" then Some(GhostType)
    else if name == "dragon" then Some(DragonType)
    else if name == "dark" then Some(DarkType)
    else if name == "steel" then Some(SteelType)
    else if name == "fairy" then Some(FairyType)
    else None
  }

  /** Every type's key selects that type's row. */
  lemma ChartKeyOfName(t: PokemonType)
    ensures ChartKey(TypeName(t)) == Some(t)
  {
  }

  /** A key selects a row only when it is that row's type name. */
  lemma ChartKeySound(name: string)
    ensures ChartKey(name).Some? ==> TypeName(ChartKey(name).value) == name
  {
  }

  /** `type_chart[moveKey][defKey]` when both keys are present. */
  function ChartLookup(moveKey: string, defKey: string): Option<Multiplier>
  {
    var a := ChartKey(moveKey);
    var d := ChartKey(defKey);
    if a.Some? && d.Some? then ChartEntry(a.value, d.value) else None
  }

  /** A possible effectiveness: 0, 0.25, 0.5, 1, 2 or 4. */
  predicate IsMultiplier(x: real)
  {
    x == 0.0 || x == 0.25 || x == 0.5 || x == 1.0 || x == 2.0 || x == 4.0
  }

  /** `e` multiplied by a chart entry (`effectiveness *= ...`); an absent entry leaves it unchanged. */
  function Scale(e: real, entry: Option<Multiplier>): (r: real)
    ensures entry.Some? ==> r == e * MultiplierValue(entry.value)
    ensures entry.None? ==> r == e
  {
    match entry
    case None => e
    case Some(Immune) => 0.0
    case Some(Half) => e / 2.0
    case Some(Double) => e * 2.0
  }

  /**
   * _calculate_type_effectiveness: 1 scaled by the chart entry for the primary type and, when
   * there is a secondary type, by the entry for it; names are compared lower-cased.
   */
  function TypeEffectiveness(moveType: string, primary: string, secondary: string): (r: real)
    ensures IsMultiplier(r)
  {
    var e1 := Scale(1.0, ChartLookup(Lower(moveType), Lower(primary)));
    if secondary != "" then Scale(e1, ChartLookup(Lower(moveType), Lower(secondary))) else e1
  }

  /** Only the lower-cased names matter. */
  lemma TypeEffectivenessIgnoresCase(m: string, p: string, s: string, m': string, p': string, s': string)
    requires Lower(m) == Lower(m') && Lower(p) == Lower(p') && Lower(s) == Lower(s')
    ensures TypeEffectiveness(m, p, s) == TypeEffectiveness(m', p', s')
  {
    assert |s| == |Lower(s)| == |s'|;
  }

  /** The order of the two defending types does not matter. */
  lemma TypeEffectivenessSymmetric(m: string, a: string, b: string)
    requires a != "" && b != ""
    ensures TypeEffectiveness(m, a, b) == TypeEffectiveness(m, b, a)
  {
  }

  /** A move type without a chart row is neutral against everything. */
  lemma UnknownMoveTypeIsNeutral(m: string, p: string, s: string)
    requires forall t :: TypeName(t) != Lower(m)
    ensures TypeEffectiveness(m, p, s) == 1.0
  {
    ChartKeySound(Lower(m));
  }

  /** A double weakness multiplies to 4: electric against water/flying. */
  lemma TypeEffectivenessDoubleWeakness()
    ensures TypeEffectiveness("electric", "water", "flying") == 4.0
  {
    LowerKeepsLowercase("electric");
    LowerKeepsLowercase("water");
    LowerKeepsLowercase("flying");
    assert ChartLookup("electric", "water") == Some(Double);
    assert ChartLookup("electric", "flying") == Some(Double);
  }

  /** A single immunity zeroes the product: ground against flying, normal against ghost. */
  lemma TypeEffectivenessImmunities()
    ensures TypeEffectiveness("ground", "flying", "") == 0.0
    ensures TypeEffectiveness("normal", "ghost", "") == 0.0
  {
    LowerKeepsLowercase("flying");
    LowerKeepsLowercase("ground");
    LowerKeepsLowercase("normal");
    LowerKeepsLowercase("ghost");
    assert ChartLookup("ground", "flying") == Some(Immune);
    assert ChartLookup("normal", "ghost") == Some(Immune);
  }

  /** The message logged for an effectiveness, if any. */
  function EffectivenessMessages(e: real, defenderName: string): (r: seq<string>)
    ensures |r| <= 1
    ensures r == [] <==> e == 1.0
  {
    if e == 0.0 then ["It doesn't affect " + defenderName + "..."]
    else if e < 1.0 then ["It's not very effective..."]
    else if e > 1.0 then ["It's super effective!"]
    else []
  }

  // ---------------------------------------------------------------------------------------
  // Damage.

  /** The random draws of one _calculate_damage call. */
  datatype DamageRolls = DamageRolls(crit: real, spread: real)

  /** The draws of one _execute_move call. */
  datatype MoveRolls = MoveRolls(accuracy: real, damage: DamageRolls, stat: real, status: real)

  predicate HighCrit(m: Move)
  {
    "high_crit" in m.flags && m.flags["high_crit"]
  }

  /** A critical hit: the draw is below 0.125 for high-crit moves, 0.0417 otherwise. */
  predicate IsCrit(m: Move, roll: real)
  {
    roll < (if HighCrit(m) then 0.125 else 0.0417)
  }

  /** The stats the battle reads through get_stat. */
  datatype StatKind = AttackStat | DefenseStat | SpecialAttackStat | SpecialDefenseStat | SpeedStat

  function StatName(k: StatKind): string
  {
    match k
    case AttackStat => "attack"
    case DefenseStat => "defense"
    case SpecialAttackStat => "special_attack"
    case SpecialDefenseStat => "special_defense"
    case SpeedStat => "speed"
  }

  /** The level formula on the stat's base, scaled by its stage and never below 1. */
  function NumericStat(p: Pokemon, k: StatKind): (r: int)
    reads p
    ensures r >= 1
  {
    var base := match k
      case AttackStat => p.attack
      case DefenseStat => p.defense
      case SpecialAttackStat => p.specialAttack
      case SpecialDefenseStat => p.specialDefense
      case SpeedStat => p.speed;
    var stage := if StatName(k) in p.statStages then p.statStages[StatName(k)] else 0;
    Max(1, StageScale(StatFromBase(base, p.level), stage))
  }

  /** get_stat on any of these names succeeds with NumericStat. */
  lemma NumericStatIsGetStat(p: Pokemon, k: StatKind)
    ensures p.GetStat(StatName(k)) == Ok(NumericStat(p, k))
  {
  }

  /** ((2 * level / 5 + 2) * power * attack / defense) / 50 + 2, in true division. */
  function BaseDamage(level: int, power: int, attack: int, defense: int): real
    requires defense >= 1
  {
    ((2.0 * level as real / 5.0 + 2.0) * power as real * attack as real / defense as real) / 50.0 + 2.0
  }

  function Effectiveness(move: Move, defender: Pokemon): real
  {
    TypeEffectiveness(move.moveType, defender.primaryType, defender.secondaryType)
  }

  /**
   * The multipliers applied to the base damage: STAB 1.5, the effectiveness, a critical 1.5
   * and the spread draw; the result is never below 1.
   */
  function Scaled(base: real, stab: bool, effectiveness: real, crit: bool, spread: real): (r: real)
    ensures r >= 1.0
  {
    var withStab := if stab then base * 1.5 else base;
    var withType := withStab * effectiveness;
    var withCrit := if crit then withType * 1.5 else withType;
    var d := withCrit * spread;
    if d > 1.0 then d else 1.0
  }

  /**
   * The value _calculate_damage returns: 0 for a status move; otherwise the base damage
   * times STAB, effectiveness, the critical bonus and the spread draw, never below 1.
   */
  function DamageValue(attacker: Pokemon, defender: Pokemon, move: Move, rolls: DamageRolls): (r: real)
    reads attacker, defender
    ensures move.category == Status ==> r == 0.0
    ensures move.category != Status ==> r >= 1.0
  {
    if move.category == Status then 0.0
    else
      var attack := if move.category == Physical then NumericStat(attacker, AttackStat)
                    else NumericStat(attacker, SpecialAttackStat);
      var defense := if move.category == Physical then NumericStat(defender, DefenseStat)
                     else NumericStat(defender, SpecialDefenseStat);
      Scaled(BaseDamage(attacker.level, move.power, attack, defense),
             MatchesType(move.moveType, attacker.GetTypes()), Effectiveness(move, defender),
             IsCrit(move, rolls.crit), rolls.spread)
  }

  /**
   * DamageValue unfolded for a damaging move with the stats and effectiveness already in
   * hand: the proof step that lets CalculateDamage compute them once.
   */
  lemma DamageFromParts(attacker: Pokemon, defender: Pokemon, move: Move, rolls: DamageRolls,
                        attack: int, defense: int, effectiveness: real)
    requires move.category != Status
    requires attack == NumericStat(attacker, if move.category == Physical then AttackStat else SpecialAttackStat)
    requires defense == NumericStat(defender, if move.category == Physical then DefenseStat else SpecialDefenseStat)
    requires effectiveness == Effectiveness(move, defender)
    ensures DamageValue(attacker, defender, move, rolls)
            == Scaled(BaseDamage(attacker.level, move.power, attack, defense),
                      MatchesType(move.moveType, attacker.GetTypes()), effectiveness,
                      IsCrit(move, rolls.crit), rolls.spread)
  {
  }

  /** What _calculate_damage logs: the effectiveness message, then the critical-hit one. */
  function DamageLog(defender: Pokemon, move: Move, rolls: DamageRolls): seq<string>
  {
    if move.category == Status then []
    else EffectivenessMessages(Effectiveness(move, defender), defender.name)
         + (if IsCrit(move, rolls.crit) then ["A critical hit!"] else [])
  }

  /** An immune defender still takes 1 damage from a damaging move. */
  lemma ImmuneHitStillDealsOne(attacker: Pokemon, defender: Pokemon, move: Move, rolls: DamageRolls)
    requires move.category != Status && Effectiveness(move, defender) == 0.0
    ensures DamageValue(attacker, defender, move, rolls) == 1.0
    ensures DamageValue(attacker, defender, move, rolls).Floor == 1
  {
  }

  // ---------------------------------------------------------------------------------------
  // Move selection.

  /** _select_move's re-weighting of a damage value: times effectiveness, then STAB 1.5. */
  function RankValue(damage: real, effectiveness: real, stab: bool): (r: real)
    ensures damage >= 0.0 && effectiveness >= 0.0 ==> r >= 0.0
  {
    NonNegativeProduct(damage, effectiveness);
    var d := damage * effectiveness;
    if stab then d * 1.5 else d
  }

  /** The number _select_move ranks a move by: damage, times effectiveness and STAB again. */
  function MoveScore(attacker: Pokemon, defender: Pokemon, move: Move, rolls: DamageRolls): (r: real)
    reads attacker, defender
    ensures r >= 0.0
  {
    RankValue(DamageValue(attacker, defender, move, rolls), Effectiveness(move, defender),
              MatchesType(move.moveType, attacker.GetTypes()))
  }

  lemma NonNegativeProduct(a: real, b: real)
    ensures a >= 0.0 && b >= 0.0 ==> a * b >= 0.0
  {
  }

  /** A status move never outranks the starting best of 0, so it is never picked. */
  lemma StatusMoveScoresZero(attacker: Pokemon, defender: Pokemon, move: Move, rolls: DamageRolls)
    requires move.category == Status
    ensures MoveScore(attacker, defender, move, rolls) == 0.0
  {
  }

  /** A damaging move scores above 0 unless the defender is immune to it. */
  lemma DamagingMoveScores(attacker: Pokemon, defender: Pokemon, move: Move, rolls: DamageRolls)
    requires move.category != Status
    ensures MoveScore(attacker, defender, move, rolls) > 0.0 <==> Effectiveness(move, defender) != 0.0
  {
    PositiveRank(DamageValue(attacker, defender, move, rolls), Effectiveness(move, defender),
                 MatchesType(move.moveType, attacker.GetTypes()));
  }

  lemma PositiveRank(damage: real, effectiveness: real, stab: bool)
    requires damage > 0.0 && effectiveness >= 0.0
    ensures RankValue(damage, effectiveness, stab) > 0.0 <==> effectiveness != 0.0
  {
    if effectiveness != 0.0 {
      assert damage * effectiveness > 0.0;
    }
  }

  /** What ranking one move logs: the damage calculation's messages, then effectiveness again. */
  function ScoreLog(defender: Pokemon, move: Move, rolls: DamageRolls): seq<string>
  {
    DamageLog(defender, move, rolls) + EffectivenessMessages(Effectiveness(move, defender), defender.name)
  }

  predicate Usable(move: Move)
    reads move
  {
    move.pp > 0
  }

  /** Everything _select_move logs while ranking the first `n` moves. */
  function SelectionLog(attacker: Pokemon, defender: Pokemon, rolls: nat -> DamageRolls, n: nat): seq<string>
    reads attacker.moves
    requires n <= |attacker.moves|
  {
    if n == 0 then []
    else SelectionLog(attacker, defender, rolls, n - 1)
         + (if Usable(attacker.moves[n - 1]) then ScoreLog(defender, attacker.moves[n - 1], rolls(n - 1)) else [])
  }

  /** The move used when no move with PP ranks above 0. */
  const StruggleValue := MoveValue("Struggle", "Normal", 50, 100, -1, -1, Physical, 0, None, "normal", map[])

  lemma SelectionLogStep(attacker: Pokemon, defender: Pokemon, rolls: nat -> DamageRolls, n: nat)
    requires n < |attacker.moves|
    ensures SelectionLog(attacker, defender, rolls, n + 1)
            == SelectionLog(attacker, defender, rolls, n)
               + (if Usable(attacker.moves[n]) then ScoreLog(defender, attacker.moves[n], rolls(n)) else [])
  {
  }

  /** The ranks _select_move computes: none for a move without PP, its score otherwise. */
  function Ranking(attacker: Pokemon, defender: Pokemon, rolls: nat -> DamageRolls, n: nat): (r: seq<Option<real>>)
    reads attacker, defender, attacker.moves
    requires n <= |attacker.moves|
    ensures |r| == n
  {
    if n == 0 then []
    else Ranking(attacker, defender, rolls, n - 1)
         + [if Usable(attacker.moves[n - 1])
            then Some(MoveScore(attacker, defender, attacker.moves[n - 1], rolls(n - 1))) else None]
  }

  /** Every ranked move's rank is its score; moves without PP are not ranked. */
  lemma {:induction false} RankingAt(attacker: Pokemon, defender: Pokemon, rolls: nat -> DamageRolls, n: nat, j: nat)
    requires j < n <= |attacker.moves|
    ensures Ranking(attacker, defender, rolls, n)[j].Some? <==> Usable(attacker.moves[j])
    ensures Ranking(attacker, defender, rolls, n)[j].Some? ==>
              Ranking(attacker, defender, rolls, n)[j].value
              == MoveScore(attacker, defender, attacker.moves[j], rolls(j))
  {
    if j < n - 1 {
      RankingAt(attacker, defender, rolls, n - 1, j);
    }
  }

  /** The loop state of _select_move: the best index so far and its rank (0 before any). */
  datatype Pick = Pick(best: Option<nat>, top: real)

  /** _select_move's scan: a rank replaces the best only when strictly above the best so far. */
  function Best(ranks: seq<Option<real>>): (r: Pick)
    ensures r.best.Some? ==> r.best.value < |ranks|
  {
    if ranks == [] then Pick(None, 0.0)
    else
      var p := Best(ranks[..|ranks| - 1]);
      var last := ranks[|ranks| - 1];
      if last.Some? && last.value > p.top then Pick(Some(|ranks| - 1), last.value) else p
  }

  /** Index `i` holds the first strictly highest rank, and that rank is above 0. */
  predicate FirstBest(ranks: seq<Option<real>>, i: nat)
  {
    i < |ranks| && ranks[i].Some? && ranks[i].value > 0.0
    && (forall j :: 0 <= j < |ranks| && ranks[j].Some? ==> ranks[j].value <= ranks[i].value)
    && (forall j :: 0 <= j < i && ranks[j].Some? ==> ranks[j].value < ranks[i].value)
  }

  /** No rank is above 0. */
  predicate NoneAboveZero(ranks: seq<Option<real>>)
  {
    forall j :: 0 <= j < |ranks| && ranks[j].Some? ==> ranks[j].value <= 0.0
  }

  /**
   * The scan picks the first strictly highest rank above 0, keeping that rank as its top;
   * it picks nothing exactly when no rank is above 0.
   */
  lemma {:induction false} BestIsFirstHighest(ranks: seq<Option<real>>)
    ensures Best(ranks).best.Some? ==> FirstBest(ranks, Best(ranks).best.value)
                                       && Best(ranks).top == ranks[Best(ranks).best.value].value
    ensures Best(ranks).best.None? <==> NoneAboveZero(ranks)
    ensures Best(ranks).best.None? ==> Best(ranks).top == 0.0
  {
    if ranks != [] {
      var init := ranks[..|ranks| - 1];
      BestIsFirstHighest(init);
      assert forall j :: 0 <= j < |init| ==> ranks[j] == init[j];
    }
  }

  /** One more step of the scan. */
  lemma BestSnoc(ranks: seq<Option<real>>, x: Option<real>)
    ensures Best(ranks + [x]) == (if x.Some? && x.value > Best(ranks).top
                                  then Pick(Some(|ranks|), x.value) else Best(ranks))
  {
    assert (ranks + [x])[..|ranks|] == ranks;
  }

  /** At most one index holds the first strictly highest rank. */
  lemma FirstBestUnique(ranks: seq<Option<real>>, i: nat, k: nat)
    requires FirstBest(ranks, i) && FirstBest(ranks, k)
    ensures i == k
  {
  }

  // ---------------------------------------------------------------------------------------
  // Move order.

  datatype Order = P1First | P2First

  function Flip(o: Order): Order
  {
    if o == P1First then P2First else P1First
  }

  /** Speed for ordering: the speed stat, halved (rounded down) under paralysis. */
  function EffectiveSpeed(p: Pokemon): (r: int)
    reads p
    ensures p.status != Paralysis ==> r == NumericStat(p, SpeedStat)
    ensures p.status == Paralysis ==> 2 * r <= NumericStat(p, SpeedStat) < 2 * r + 2
  {
    var s := NumericStat(p, SpeedStat);
    if p.status == Paralysis then s / 2 else s
  }

  /**
   * _determine_move_order: higher priority first; on equal priority the faster side; on
   * equal speed the first side when the coin draw is below 0.5.
   */
  function MoveOrder(p1: Pokemon, m1: Move, p2: Pokemon, m2: Move, coin: real): (o: Order)
    reads p1, p2
    ensures m1.priority != m2.priority ==> (o == P1First <==> m1.priority > m2.priority)
    ensures m1.priority == m2.priority && EffectiveSpeed(p1) != EffectiveSpeed(p2)
            ==> (o == P1First <==> EffectiveSpeed(p1) > EffectiveSpeed(p2))
    ensures m1.priority == m2.priority && EffectiveSpeed(p1) == EffectiveSpeed(p2)
            ==> (o == P1First <==> coin < 0.5)
  {
    if m1.priority > m2.priority then P1First
    else if m2.priority > m1.priority then P2First
    else
      var s1 := EffectiveSpeed(p1);
      var s2 := EffectiveSpeed(p2);
      if s1 == s2 then (if coin < 0.5 then P1First else P2First)
      else if s1 > s2 then P1First
      else P2First
  }

  /** Priority decides before speed does. */
  lemma PriorityDecidesFirst(p1: Pokemon, m1: Move, p2: Pokemon, m2: Move, coin: real)
    requires m1.priority != m2.priority
    ensures MoveOrder(p1, m1, p2, m2, coin) == P1First <==> m1.priority > m2.priority
  {
  }

  /** On equal priority, the strictly faster side moves first, whatever the coin. */
  lemma SpeedDecidesOnEqualPriority(p1: Pokemon, m1: Move, p2: Pokemon, m2: Move, coin: real)
    requires m1.priority == m2.priority && EffectiveSpeed(p1) != EffectiveSpeed(p2)
    ensures MoveOrder(p1, m1, p2, m2, coin) == P1First <==> EffectiveSpeed(p1) > EffectiveSpeed(p2)
  {
  }

  /** Unless the coin is needed, swapping the two sides swaps the order. */
  lemma MoveOrderSwap(p1: Pokemon, m1: Move, p2: Pokemon, m2: Move, coin: real)
    requires m1.priority != m2.priority || EffectiveSpeed(p1) != EffectiveSpeed(p2)
    ensures MoveOrder(p2, m2, p1, m1, coin) == Flip(MoveOrder(p1, m1, p2, m2, coin))
  {
  }

  /** Paralysis never makes a combatant faster. */
  lemma ParalysisOnlySlows(p: Pokemon)
    ensures EffectiveSpeed(p) <= NumericStat(p, SpeedStat)
  {
  }

  // ---------------------------------------------------------------------------------------
  // Move effects.

  /** `effect.get('chance', 1.0)`. */
  function Chance(e: MoveEffect): real
  {
    if e.chance.Some? then e.chance.value else 1.0
  }

  /** The name Python prints for a status value (None prints as "None"). */
  function StatusText(s: StatusCondition): string
  {
    match StatusValue(s)
    case None => "None"
    case Some(v) => v
  }

  /** The status after an attempt to inflict `incoming`: only a combatant without one takes it. */
  function StatusAfter(current: StatusCondition, incoming: StatusCondition): (r: StatusCondition)
    ensures current != NoStatus ==> r == current
  {
    if current == NoStatus then incoming else current
  }

  function StatusLog(current: StatusCondition, incoming: StatusCondition, name: string): seq<string>
  {
    if current == NoStatus then [name + " was " + StatusText(incoming) + "ed!"] else []
  }

  /** The first status inflicted stays: a second one changes nothing. */
  lemma FirstStatusWins(a: StatusCondition, b: StatusCondition)
    requires a != NoStatus
    ensures StatusAfter(StatusAfter(NoStatus, a), b) == a
    ensures StatusLog(StatusAfter(NoStatus, a), b, "") == []
  {
  }

  /** The state a move's effects leave on the target, what they log and how they end. */
  datatype EffectResult = EffectResult(stages: map<string, int>, status: StatusCondition,
                                       messages: seq<string>, outcome: Outcome<BattleError>)

  /** The stat part of an effect, when its draw succeeds. */
  function StatEffect(e: MoveEffect, stages: map<string, int>, name: string, roll: real): (r: EffectResult)
    requires e.stat.Some?
  {
    if !(roll < Chance(e)) then EffectResult(stages, NoStatus, [], Pass)
    else if e.stages.None? then EffectResult(stages, NoStatus, [], Fail(MissingStages))
    else
      var stat := e.stat.value;
      var n := e.stages.value;
      if stat !in stages then EffectResult(stages, NoStatus, [], Fail(StageRejected(InvalidStat(stat))))
      else EffectResult(stages[stat := ClampStage(stages[stat] + n)], NoStatus,
                        [name + "'s " + stat + (if n > 0 then " rose!" else " fell!")], Pass)
  }

  /**
   * _apply_move_effects on the target's stages and status: the stat change when the effect
   * names a stat and its draw is below the chance, then the status when the effect names
   * one and its own draw is below the chance. An exception stops the rest.
   */
  function EffectOutcome(effect: Option<MoveEffect>, stages: map<string, int>, status: StatusCondition,
                         name: string, statRoll: real, statusRoll: real): (r: EffectResult)
    ensures r.stages.Keys == stages.Keys
    ensures StagesInRange(stages) ==> StagesInRange(r.stages)
    ensures status != NoStatus ==> r.status == status
    ensures effect.None? ==> r == EffectResult(stages, status, [], Pass)
  {
    if effect.None? then EffectResult(stages, status, [], Pass)
    else
      var e := effect.value;
      var afterStat := if e.stat.Some? then StatEffect(e, stages, name, statRoll)
                       else EffectResult(stages, NoStatus, [], Pass);
      if afterStat.outcome.Fail? then EffectResult(stages, status, [], afterStat.outcome)
      else if e.status.Some? && statusRoll < Chance(e) then
        match StatusFromValue(e.status)
        case None => EffectResult(afterStat.stages, status, afterStat.messages, Fail(UnknownStatus(e.status.value)))
        case Some(s) => EffectResult(afterStat.stages, StatusAfter(status, s),
                                     afterStat.messages + StatusLog(status, s, name), Pass)
      else EffectResult(afterStat.stages, status, afterStat.messages, Pass)
  }

  // ---------------------------------------------------------------------------------------
  // End-of-turn damage.

  /** Burn and poison: an eighth of max HP, at least 1. */
  function BurnDamage(maxHp: int): (r: int)
    ensures r >= 1
  {
    Max(1, maxHp / 8)
  }

  /** Toxic: counter sixteenths of max HP, at least 1. */
  function ToxicDamage(maxHp: int, counter: int): (r: int)
    ensures r >= 1
  {
    Max(1, maxHp * counter / 16)
  }

  /** A higher toxic counter never deals less damage. */
  lemma ToxicNonDecreasing(maxHp: int, counter: int)
    requires maxHp >= 0
    ensures ToxicDamage(maxHp, counter) <= ToxicDamage(maxHp, counter + 1)
  {
    MulMonotone(maxHp, counter, counter + 1);
    DivMonotone(maxHp * counter, maxHp * (counter + 1), 16);
  }

  /** From 16 max HP on, every toxic tick after the first deals strictly more than the last. */
  lemma ToxicStrictlyGrows(maxHp: int, counter: int)
    requires maxHp >= 16 && counter >= 1
    ensures ToxicDamage(maxHp, counter) < ToxicDamage(maxHp, counter + 1)
  {
    MulMonotone(maxHp, 1, counter);
    DivMonotone(16, maxHp * counter, 16);
    assert maxHp * (counter + 1) == maxHp * counter + maxHp;
    DivMonotone(maxHp * counter + 16, maxHp * (counter + 1), 16);
    assert (maxHp * counter + 16) / 16 == maxHp * counter / 16 + 1;
  }

  /** Below 16 max HP toxic stalls at first: the first two ticks both deal 1. */
  lemma ToxicCanStall(maxHp: int)
    requires maxHp < 16
    ensures ToxicDamage(maxHp, 1) == ToxicDamage(maxHp, 2) == 1
  {
    assert maxHp * 2 < 32;
  }

  /** The part of a combatant the end-of-turn tick reads and writes. */
  datatype Vitals = Vitals(currentHp: int, status: StatusCondition, tagged: bool, toxicCounter: int)

  function VitalsOf(p: Pokemon): Vitals
    reads p
  {
    Vitals(p.currentHp, p.status, ToxicCounterTag in p.volatile, p.toxicCounter)
  }

  /** take_damage's clamp. */
  function Hurt(hp: int, damage: int, maxHp: int): int
  {
    Max(0, Min(hp - damage, maxHp))
  }

  /**
   * One end-of-turn tick: burn and poison deal BurnDamage; toxic starts its counter at 1
   * (tagging the combatant) or raises it by 1, then deals ToxicDamage for the new counter.
   */
  function Tick(v: Vitals, maxHp: int): (r: Vitals)
    ensures r.status == v.status
    ensures v.status !in {Burn, Poison, Toxic} ==> r == v
    ensures v.status == Toxic ==> r.tagged && r.toxicCounter == (if v.tagged then v.toxicCounter + 1 else 1)
    ensures v.status != Toxic ==> r.tagged == v.tagged && r.toxicCounter == v.toxicCounter
  {
    match v.status
    case Burn => v.(currentHp := Hurt(v.currentHp, BurnDamage(maxHp), maxHp))
    case Poison => v.(currentHp := Hurt(v.currentHp, BurnDamage(maxHp), maxHp))
    case Toxic =>
      var counter := if v.tagged then v.toxicCounter + 1 else 1;
      Vitals(Hurt(v.currentHp, ToxicDamage(maxHp, counter), maxHp), v.status, true, counter)
    case _ => v
  }

  /** The damage a tick deals before the clamp. */
  function TickDamage(v: Vitals, maxHp: int): int
  {
    match v.status
    case Burn => BurnDamage(maxHp)
    case Poison => BurnDamage(maxHp)
    case Toxic => ToxicDamage(maxHp, Tick(v, maxHp).toxicCounter)
    case _ => 0
  }

  function TickLog(status: StatusCondition, name: string): seq<string>
  {
    match status
    case Burn => [name + " was hurt by its burn!"]
    case Poison => [name + " was hurt by poison!"]
    case Toxic => [name + " was hurt by toxic!"]
    case _ => []
  }

  /** A tick never heals: HP within [0, max_hp] stays there and does not rise. */
  lemma TickNeverHeals(v: Vitals, maxHp: int)
    requires 0 <= v.currentHp <= maxHp
    ensures 0 <= Tick(v, maxHp).currentHp <= v.currentHp
    ensures v.status in {Burn, Poison, Toxic} ==> Tick(v, maxHp).currentHp < v.currentHp || v.currentHp == 0
  {
  }

  /** `n` ticks in a row. */
  function Ticks(v: Vitals, maxHp: int, n: nat): Vitals
  {
    if n == 0 then v else Tick(Ticks(v, maxHp, n - 1), maxHp)
  }

  /** Starting untagged, toxic's counter after n ticks is n. */
  lemma {:induction false} ToxicCounterCountsTicks(v: Vitals, maxHp: int, n: nat)
    requires v.status == Toxic && !v.tagged && n >= 1
    ensures Ticks(v, maxHp, n).toxicCounter == n && Ticks(v, maxHp, n).tagged
    ensures Ticks(v, maxHp, n).status == Toxic
  {
    if n > 1 {
      ToxicCounterCountsTicks(v, maxHp, n - 1);
    }
  }

  /** Turn over turn, toxic damage never decreases. */
  lemma ToxicTicksEscalate(v: Vitals, maxHp: int)
    requires v.status == Toxic && maxHp >= 0 && v.toxicCounter >= 0
    ensures TickDamage(v, maxHp) <= TickDamage(Tick(v, maxHp), maxHp)
  {
    ToxicNonDecreasing(maxHp, Tick(v, maxHp).toxicCounter);
  }

  // ---------------------------------------------------------------------------------------
  // Battle over, replacement and result.

  /** Some member of the team has not fainted. */
  predicate TeamAlive(team: seq<Pokemon>)
    reads team
  {
    exists i :: 0 <= i < |team| && !team[i].IsFainted()
  }

  /** The position of the first member with the highest base HP (Python's max with a key). */
  function {:induction false} FirstMaxHp(ps: seq<Pokemon>): (i: nat)
    requires |ps| > 0
    ensures i < |ps|
    ensures forall j :: 0 <= j < |ps| ==> ps[j].hp <= ps[i].hp
    ensures forall j :: 0 <= j < i ==> ps[j].hp < ps[i].hp
  {
    if |ps| == 1 then 0
    else
      var k := FirstMaxHp(ps[1..]) + 1;
      assert forall j :: 1 <= j < |ps| ==> ps[j] == ps[1..][j - 1];
      if ps[0].hp >= ps[k].hp then 0 else k
  }

  /**
   * _select_replacement: among the team members that have not fainted and are not equal to
   * the fainted one, the first with the highest base HP; None when there are none.
   */
  function SelectReplacement(fainted: Pokemon, team: seq<Pokemon>): (r: Option<Pokemon>)
    reads Footprint(team + [fainted])
    ensures r.None? <==> AliveOthers(team, fainted) == []
    ensures r.Some? ==> r.value in team && r.value.currentHp > 0 && !SameAs(r.value, fainted)
    ensures r.Some? ==> forall q :: q in AliveOthers(team, fainted) ==> q.hp <= r.value.hp
    ensures r.Some? ==> (exists i :: 0 <= i < |AliveOthers(team, fainted)|
                          && AliveOthers(team, fainted)[i] == r.value
                          && forall j :: 0 <= j < i ==> AliveOthers(team, fainted)[j].hp < r.value.hp)
  {
    assert team + [fainted] == team + OptionalSeq(fainted);
    var available := AliveOthers(team, fainted);
    if available == [] then None
    else
      var i := FirstMaxHp(available);
      assert available[i] in available;
      Some(available[i])
  }

  /** The line _end_battle logs, given which teams still have a combatant standing. */
  function EndMessage(alive1: bool, alive2: bool): string
  {
    if alive1 && !alive2 then "\nTeam 1 wins the battle!"
    else if alive2 && !alive1 then "\nTeam 2 wins the battle!"
    else "\nThe battle ended in a draw!"
  }

  /** Once the battle is over, the result is a draw exactly when neither team is standing. */
  lemma EndMessageOfFinishedBattle(alive1: bool, alive2: bool)
    requires !(alive1 && alive2)
    ensures EndMessage(alive1, alive2) == "\nThe battle ended in a draw!" <==> !alive1 && !alive2
    ensures alive1 ==> EndMessage(alive1, alive2) == "\nTeam 1 wins the battle!"
    ensures alive2 ==> EndMessage(alive1, alive2) == "\nTeam 2 wins the battle!"
  {
  }

  /** A fainted combatant with no replacement means its whole team is down. */
  lemma NoReplacementMeansTeamDown(fainted: Pokemon, team: seq<Pokemon>)
    requires fainted.IsFainted() && SelectReplacement(fainted, team).None?
    ensures !TeamAlive(team)
  {
    forall i | 0 <= i < |team|
      ensures team[i].IsFainted()
    {
      assert team[i] in team;
    }
  }

  // ---------------------------------------------------------------------------------------
  // Log lines.

  function UsedMessage(attacker: string, move: string): string
  {
    Cyan + attacker + ResetAll + " used " + Yellow + move + ResetAll + "!"
  }

  function TurnHeader(turn: int): string
  {
    "\n" + Cyan + "=== Turn " + IntToString(turn) + " ===" + ResetAll
  }

  function Repeat(c: char, n: int): (r: string)
    ensures |r| == Max(0, n)
    decreases n
  {
    if n <= 0 then [] else [c] + Repeat(c, n - 1)
  }

  /**
   * `int(current_hp / max_hp * 20)`: the filled cells of the bar, the HP fraction of twenty
   * rounded toward zero.
   */
  function FilledCells(currentHp: int, maxHp: int): (n: int)
    requires maxHp > 0
    ensures currentHp >= 0 ==> n * maxHp <= 20 * currentHp < (n + 1) * maxHp
    ensures currentHp < 0 ==> (-n) * maxHp <= -20 * currentHp < (-n + 1) * maxHp
    ensures 0 <= currentHp <= maxHp ==> 0 <= n <= 20
    ensures currentHp == maxHp ==> n == 20
  {
    var a := if currentHp >= 0 then currentHp * 20 else -currentHp * 20;
    var q := a / maxHp;
    DivBounds(a, maxHp);
    if currentHp >= 0 then CellsInRange(currentHp, maxHp, q); q else -q
  }

  /** Bracketed between two multiples of max HP, the cell count lies in 0..20. */
  lemma CellsInRange(h: int, b: int, q: int)
    requires b > 0 && 0 <= h && q * b <= 20 * h < (q + 1) * b
    ensures h <= b ==> 0 <= q <= 20
    ensures h == b ==> q == 20
  {
    if h <= b {
      MulCancel(q, 20, b);
      MulCancel(-1, q, b);
    }
    if h == b {
      MulCancel(19, q, b);
    }
  }

  /** Floor division of a non-negative number brackets it between two multiples. */
  lemma DivBounds(a: int, b: int)
    requires a >= 0 && b > 0
    ensures (a / b) * b <= a < (a / b + 1) * b
  {
  }

  /** Multiplying by a positive number keeps a strict order. */
  lemma MulCancel(x: int, y: int, b: int)
    requires b > 0 && x * b < (y + 1) * b
    ensures x <= y
  {
  }

  /**
   * get_hp_bar without its trailing percentage: twenty cells filled in proportion to HP,
   * coloured green above half, yellow above a fifth and red otherwise.
   */
  function HpBar(currentHp: int, maxHp: int): (r: string)
    ensures r == "[DEAD]" <==> maxHp <= 0
    ensures maxHp > 0 ==> |r| >= 2 && r[0] == '[' && r[1] == Esc
  {
    if maxHp <= 0 then "[DEAD]"
    else
      var filled := FilledCells(currentHp, maxHp);
      var colour := if 2 * currentHp > maxHp then [Esc] + "[92m"
                    else if 5 * currentHp > maxHp then [Esc] + "[93m"
                    else [Esc] + "[91m";
      "[" + colour + Repeat('█', filled) + Repeat(' ', 20 - filled) + [Esc] + "[0m] "
        + IntToString(currentHp) + "/" + IntToString(maxHp)
  }

  /** What a damaging hit logs after the damage calculation's own messages. */
  function HitLog(defenderName: string, damage: int, hpAfter: int, maxHp: int): seq<string>
  {
    [defenderName + " took " + IntToString(damage) + " damage!", HpBar(hpAfter, maxHp)]
  }

  /** Every line a weather condition logs at the start of a turn. */
  function WeatherLog(w: Weather): seq<string>
  {
    if w == Sandstorm then ["The sandstorm rages!"]
    else if w == Hail then ["The hail continues to fall!"]
    else []
  }

  function TerrainLog(t: Terrain): seq<string>
  {
    if t != NoTerrain then ["The " + TerrainValue(t) + " continues to affect the battlefield!"] else []
  }

  /** _init_teams turns a fainted status back to none and keeps every other status. */
  function ResetStatus(s: StatusCondition): (r: StatusCondition)
    ensures r != Fainted
    ensures s != Fainted ==> r == s
  {
    if s == Fainted then NoStatus else s
  }

  /** The volatile set after a tick: toxic tags it, nothing else touches it. */
  function TaggedIf(volatile: set<VolatileEntry>, status: StatusCondition): set<VolatileEntry>
  {
    if status == Toxic then volatile + {ToxicCounterTag} else volatile
  }

  /** The draws one turn consumes. */
  datatype TurnRolls = TurnRolls(select1: nat -> DamageRolls, select2: nat -> DamageRolls, coin: real,
                                 first: MoveRolls, second: MoveRolls)

  /** How a turn ends: the next turn's combatants, the end of the battle, or an exception. */
  datatype TurnResult =
    | Continue(next1: Pokemon, next2: Pokemon)
    | Finished
    | Crashed(error: BattleError)

  predicate Missed(move: Move, roll: real)
  {
    roll * 100.0 > move.accuracy as real
  }

  class Battle {
    const team1: seq<Pokemon>
    const team2: seq<Pokemon>
    var weather: Weather
    var terrain: Terrain
    var turn: int
    var sides: map<string, SideState>
    var log: seq<string>

    /**
     * __init__: clear weather, no terrain, turn 0, fresh sides and an empty log; then every
     * team member is at full HP with all stages 0 and no longer marked fainted.
     */
    constructor(team1: seq<Pokemon>, team2: seq<Pokemon>)
      modifies team1, team2
      ensures this.team1 == team1 && this.team2 == team2
      ensures weather == Clear && terrain == NoTerrain && turn == 0
      ensures sides == InitialSides && log == []
      ensures forall p :: p in team1 + team2 ==>
                p.currentHp == p.maxHp && p.statStages == ZeroStages(old(p.statStages))
                && p.status == ResetStatus(old(p.status))
      ensures forall p :: p in team1 + team2 ==>
                p.volatile == old(p.volatile) && p.toxicCounter == old(p.toxicCounter)
    {
      this.team1 := team1;
      this.team2 := team2;
      weather := Clear;
      terrain := NoTerrain;
      turn := 0;
      sides := InitialSides;
      log := [];
      new;
      InitTeams();
    }

    /**
     * _init_teams: for each member of team1 + team2 in turn, HP to the maximum, stages to 0
     * and a fainted status to none. A combatant listed twice ends up the same as once.
     */
    method InitTeams()
      modifies team1, team2
      ensures forall p :: p in team1 + team2 ==>
                p.currentHp == p.maxHp && p.statStages == ZeroStages(old(p.statStages))
                && p.status == ResetStatus(old(p.status))
      ensures forall p :: p in team1 + team2 ==>
                p.volatile == old(p.volatile) && p.toxicCounter == old(p.toxicCounter)
    {
      var members := team1 + team2;
      for i := 0 to |members|
        invariant forall p :: p in members[..i] ==>
                    p.currentHp == p.maxHp && p.statStages == ZeroStages(old(p.statStages))
                    && p.status == ResetStatus(old(p.status))
        invariant forall p :: p in members && p !in members[..i] ==>
                    p.currentHp == old(p.currentHp) && p.statStages == old(p.statStages)
                    && p.status == old(p.status)
        invariant forall p :: p in members ==>
                    p.volatile == old(p.volatile) && p.toxicCounter == old(p.toxicCounter)
      {
        var p := members[i];
        ZeroStagesIdempotent(old(p.statStages));
        ResetMember(p);
        assert members[..i + 1] == members[..i] + [p];
      }
      assert members[..|members|] == members;
    }

    /** The body of _init_teams' loop for one combatant. */
    static method ResetMember(p: Pokemon)
      modifies p`currentHp, p`statStages, p`status
      ensures p.currentHp == p.maxHp && p.statStages == ZeroStages(old(p.statStages))
      ensures p.status == ResetStatus(old(p.status))
    {
      p.currentHp := p.maxHp;
      p.ResetStatStages();
      if p.status == Fainted {
        p.status := NoStatus;
      }
    }

    /** log_message: the message is appended and nothing else in the log changes. */
    method LogMessage(message: string)
      modifies this`log
      ensures log == old(log) + [message]
    {
      log := log + [message];
    }

    /** _calculate_type_effectiveness: the chart product, logging how effective it is. */
    method CalculateTypeEffectiveness(move: Move, defender: Pokemon) returns (effectiveness: real)
      modifies this`log
      ensures effectiveness == Effectiveness(move, defender)
      ensures log == old(log) + EffectivenessMessages(effectiveness, defender.name)
    {
      effectiveness := 1.0;
      var moveType := Lower(move.moveType);
      var primary := ChartLookup(moveType, Lower(defender.primaryType));
      if primary.Some? {
        effectiveness := effectiveness * MultiplierValue(primary.value);
      }
      if defender.secondaryType != "" {
        var secondary := ChartLookup(moveType, Lower(defender.secondaryType));
        if secondary.Some? {
          effectiveness := effectiveness * MultiplierValue(secondary.value);
        }
      }
      assert effectiveness == Effectiveness(move, defender);
      if effectiveness == 0.0 {
        LogMessage("It doesn't affect " + defender.name + "...");
      } else if effectiveness < 1.0 {
        LogMessage("It's not very effective...");
      } else if effectiveness > 1.0 {
        LogMessage("It's super effective!");
      }
    }

    /** _calculate_damage: DamageValue, logging effectiveness and a critical hit. */
    method CalculateDamage(attacker: Pokemon, defender: Pokemon, move: Move, rolls: DamageRolls)
      returns (damage: real)
      modifies this`log
      ensures damage == DamageValue(attacker, defender, move, rolls)
      ensures log == old(log) + DamageLog(defender, move, rolls)
    {
      if move.category == Status {
        return 0.0;
      }
      var attackKind, defenseKind := SpecialAttackStat, SpecialDefenseStat;
      if move.category == Physical {
        attackKind, defenseKind := AttackStat, DefenseStat;
      }
      var attackStat := attacker.GetStat(StatName(attackKind));
      var defenseStat := defender.GetStat(StatName(defenseKind));
      NumericStatIsGetStat(attacker, attackKind);
      NumericStatIsGetStat(defender, defenseKind);
      var attack, defense := attackStat.value, defenseStat.value;
      var base := BaseDamage(attacker.level, move.power, attack, defense);
      var stab := MatchesType(move.moveType, attacker.GetTypes());
      var effectiveness := CalculateTypeEffectiveness(move, defender);
      var crit := IsCrit(move, rolls.crit);
      if crit {
        LogMessage("A critical hit!");
      }
      damage := Scaled(base, stab, effectiveness, crit, rolls.spread);
      DamageFromParts(attacker, defender, move, rolls, attack, defense, effectiveness);
    }
  

    /**
     * One ranking step of _select_move: the damage calculation (which logs), the
     * effectiveness again (which logs again), and the re-weighted score.
     */
    method RankMove(attacker: Pokemon, defender: Pokemon, move: Move, rolls: DamageRolls)
      returns (score: real)
      modifies this`log
      ensures score == MoveScore(attacker, defender, move, rolls)
      ensures log == old(log) + ScoreLog(defender, move, rolls)
    {
      var damage := CalculateDamage(attacker, defender, move, rolls);
      var effectiveness := CalculateTypeEffectiveness(move, defender);
      score := RankValue(damage, effectiveness, MatchesType(move.moveType, attacker.GetTypes()));
    }

    /** The Struggle move _select_move falls back on. */
    static method NewStruggle() returns (m: Move)
      ensures fresh(m) && m.Value() == StruggleValue
    {
      m := new Move("Struggle", "Normal", 50, 100, -1, -1, Physical);
    }

    /**
     * One pass of _select_move's loop: a move with PP is ranked (which logs) and replaces the
     * best so far when it ranks strictly higher; a move without PP is skipped.
     */
    method ConsiderMove(attacker: Pokemon, defender: Pokemon, rolls: nat -> DamageRolls, i: nat,
                        ghost ranking: seq<Option<real>>, best: Option<nat>, top: real)
      returns (newBest: Option<nat>, newTop: real)
      requires i < |attacker.moves|
      requires ranking == Ranking(attacker, defender, rolls, |attacker.moves|)
      requires Best(ranking[..i]) == Pick(best, top)
      modifies this`log
      ensures Best(ranking[..i + 1]) == Pick(newBest, newTop)
      ensures log == old(log) + (if Usable(attacker.moves[i])
                                 then ScoreLog(defender, attacker.moves[i], rolls(i)) else [])
    {
      var move := attacker.moves[i];
      assert ranking[..i + 1] == ranking[..i] + [ranking[i]];
      RankingAt(attacker, defender, rolls, |attacker.moves|, i);
      newBest, newTop := best, top;
      if move.pp > 0 {
        var score := RankMove(attacker, defender, move, rolls(i));
        BestSnoc(ranking[..i], Some(score));
        if score > top {
          newBest, newTop := Some(i), score;
        }
      } else {
        BestSnoc(ranking[..i], None);
      }
    }

    /**
     * The loop of _select_move: every move with PP is ranked in order (which logs), and the
     * answer is the index the scan keeps.
     */
    method RankMoves(attacker: Pokemon, defender: Pokemon, rolls: nat -> DamageRolls) returns (best: Option<nat>)
      modifies this`log
      ensures log == old(log) + SelectionLog(attacker, defender, rolls, |attacker.moves|)
      ensures best == Best(Ranking(attacker, defender, rolls, |attacker.moves|)).best
    {
      var moves := attacker.moves;
      ghost var ranking := Ranking(attacker, defender, rolls, |moves|);
      best := None;
      var maxDamage := 0.0;
      for i := 0 to |moves|
        invariant log == old(log) + SelectionLog(attacker, defender, rolls, i)
        invariant Best(ranking[..i]) == Pick(best, maxDamage)
      {
        SelectionLogStep(attacker, defender, rolls, i);
        ConcatAssociative(old(log), SelectionLog(attacker, defender, rolls, i),
                          if Usable(moves[i]) then ScoreLog(defender, moves[i], rolls(i)) else []);
        best, maxDamage := ConsiderMove(attacker, defender, rolls, i, ranking, best, maxDamage);
      }
      assert ranking[..|moves|] == ranking;
    }

    /**
     * _select_move: the first move with PP whose rank is strictly the highest and above 0,
     * or a new Struggle when there is none; ranking logs.
     */
    method SelectMove(attacker: Pokemon, defender: Pokemon, rolls: nat -> DamageRolls) returns (chosen: Move)
      modifies this`log
      ensures log == old(log) + SelectionLog(attacker, defender, rolls, |attacker.moves|)
      ensures var pick := Best(Ranking(attacker, defender, rolls, |attacker.moves|)).best;
              (pick.Some? ==> chosen == attacker.moves[pick.value])
              && (pick.None? ==> fresh(chosen) && chosen.Value() == StruggleValue)
    {
      var best := RankMoves(attacker, defender, rolls);
      if best.None? {
        chosen := NewStruggle();
      } else {
        chosen := attacker.moves[best.value];
      }
    }

    /** _apply_status_condition: only a combatant without a status takes the new one, and says so. */
    method ApplyStatusCondition(target: Pokemon, status: StatusCondition)
      modifies target`status, this`log
      ensures target.status == StatusAfter(old(target.status), status)
      ensures log == old(log) + StatusLog(old(target.status), status, target.name)
    {
      if target.status == NoStatus {
        target.status := status;
        LogMessage(target.name + " was " + StatusText(status) + "ed!");
      }
    }

    /**
     * _apply_move_effects: the stages, status, log and outcome EffectOutcome describes, with
     * the effect applied to the target.
     */
    method ApplyMoveEffects(user: Pokemon, target: Pokemon, move: Move, statRoll: real, statusRoll: real)
      returns (outcome: Outcome<BattleError>)
      modifies target`statStages, target`status, this`log
      ensures var r := EffectOutcome(move.effect, old(target.statStages), old(target.status), target.name,
                                     statRoll, statusRoll);
              target.statStages == r.stages && target.status == r.status
              && log == old(log) + r.messages && outcome == r.outcome
    {
      if move.effect.None? {
        return Pass;
      }
      var e := move.effect.value;
      if e.stat.Some? && statRoll < Chance(e) {
        if e.stages.None? {
          return Fail(MissingStages);
        }
        var stat, stages := e.stat.value, e.stages.value;
        var changed := target.ModifyStatStage(stat, stages);
        if changed.Err? {
          return Fail(StageRejected(changed.error));
        }
        if stages > 0 {
          LogMessage(target.name + "'s " + stat + " rose!");
        } else {
          LogMessage(target.name + "'s " + stat + " fell!");
        }
      }
      if e.status.Some? && statusRoll < Chance(e) {
        var status := StatusFromValue(e.status);
        if status.None? {
          return Fail(UnknownStatus(e.status.value));
        }
        ApplyStatusCondition(target, status.value);
      }
      return Pass;
    }

    /** _handle_status_move: the plain "used" line, then the move's effects on the target. */
    method HandleStatusMove(user: Pokemon, move: Move, target: Pokemon, rolls: MoveRolls)
      returns (outcome: Outcome<BattleError>)
      modifies target`statStages, target`status, this`log
      ensures var r := EffectOutcome(move.effect, old(target.statStages), old(target.status), target.name,
                                     rolls.stat, rolls.status);
              target.statStages == r.stages && target.status == r.status
              && log == old(log) + [user.name + " used " + move.name + "!"] + r.messages
              && outcome == r.outcome
    {
      LogMessage(user.name + " used " + move.name + "!");
      outcome := ApplyMoveEffects(user, target, move, rolls.stat, rolls.status);
    }

    /**
     * The damaging part of _execute_move: the truncated DamageValue through take_damage, the
     * damage and HP-bar lines, the effects, then the faint line unless the effects raised.
     */
    method Hit(attacker: Pokemon, move: Move, defender: Pokemon, rolls: MoveRolls)
      returns (outcome: Outcome<BattleError>)
      modifies defender`currentHp, defender`statStages, defender`status, this`log
      ensures var damage := old(DamageValue(attacker, defender, move, rolls.damage)).Floor;
              var hp := Hurt(old(defender.currentHp), damage, defender.maxHp);
              var r := EffectOutcome(move.effect, old(defender.statStages), old(defender.status),
                                     defender.name, rolls.stat, rolls.status);
              defender.currentHp == hp
              && defender.statStages == r.stages && defender.status == r.status && outcome == r.outcome
              && log == old(log) + DamageLog(defender, move, rolls.damage)
                        + HitLog(defender.name, damage, hp, defender.maxHp)
                        + r.messages + (if r.outcome.Pass? && hp <= 0 then [defender.name + " fainted!"] else [])
    {
      var value := CalculateDamage(attacker, defender, move, rolls.damage);
      var damage := value.Floor;
      defender.TakeDamage(damage);
      var hitLog := HitLog(defender.name, damage, defender.currentHp, defender.maxHp);
      LogMessage(hitLog[0]);
      LogMessage(hitLog[1]);
      assert log == old(log) + DamageLog(defender, move, rolls.damage) + hitLog;
      outcome := ApplyMoveEffects(attacker, defender, move, rolls.stat, rolls.status);
      if outcome.Fail? {
        return;
      }
      if defender.IsFainted() {
        LogMessage(defender.name + " fainted!");
      }
    }

    /**
     * _execute_move. Nothing happens when either side has fainted. Otherwise the "used" line;
     * a miss ends the move; a status move goes to HandleStatusMove; a damaging move deals the
     * truncated DamageValue through take_damage, logs the damage and the HP bar, applies its
     * effects and reports a faint. An exception from the effects ends the move at once.
     */
    method ExecuteMove(attacker: Pokemon, move: Move, defender: Pokemon, rolls: MoveRolls)
      returns (outcome: Outcome<BattleError>)
      modifies defender`currentHp, defender`statStages, defender`status, this`log
      ensures old(attacker.IsFainted() || defender.IsFainted()) ==>
                outcome == Pass && log == old(log) && defender.currentHp == old(defender.currentHp)
                && defender.statStages == old(defender.statStages) && defender.status == old(defender.status)
      ensures old(!attacker.IsFainted() && !defender.IsFainted()) && Missed(move, rolls.accuracy) ==>
                outcome == Pass && log == old(log) + [UsedMessage(attacker.name, move.name), "But it missed!"]
                && defender.currentHp == old(defender.currentHp)
                && defender.statStages == old(defender.statStages) && defender.status == old(defender.status)
      ensures old(!attacker.IsFainted() && !defender.IsFainted()) && !Missed(move, rolls.accuracy)
              && move.category == Status ==>
                var r := EffectOutcome(move.effect, old(defender.statStages), old(defender.status),
                                       defender.name, rolls.stat, rolls.status);
                defender.currentHp == old(defender.currentHp)
                && defender.statStages == r.stages && defender.status == r.status && outcome == r.outcome
                && log == old(log) + [UsedMessage(attacker.name, move.name)]
                          + [attacker.name + " used " + move.name + "!"] + r.messages
      ensures old(!attacker.IsFainted() && !defender.IsFainted()) && !Missed(move, rolls.accuracy)
              && move.category != Status ==>
                var damage := old(DamageValue(attacker, defender, move, rolls.damage)).Floor;
                var hp := Hurt(old(defender.currentHp), damage, defender.maxHp);
                var r := EffectOutcome(move.effect, old(defender.statStages), old(defender.status),
                                       defender.name, rolls.stat, rolls.status);
                defender.currentHp == hp
                && defender.statStages == r.stages && defender.status == r.status && outcome == r.outcome
                && log == old(log) + [UsedMessage(attacker.name, move.name)]
                          + DamageLog(defender, move, rolls.damage) + HitLog(defender.name, damage, hp, defender.maxHp)
                          + r.messages + (if r.outcome.Pass? && hp <= 0 then [defender.name + " fainted!"] else [])
    {
      if attacker.IsFainted() || defender.IsFainted() {
        return Pass;
      }
      LogMessage(UsedMessage(attacker.name, move.name));
      if rolls.accuracy * 100.0 > move.accuracy as real {
        LogMessage("But it missed!");
        return Pass;
      }
      if move.category == Status {
        outcome := HandleStatusMove(attacker, move, defender, rolls);
        return;
      }
      outcome := Hit(attacker, move, defender, rolls);
    }

    /** The `if`/`elif` chain of _end_of_turn_effects for one combatant. */
    method StatusTick(p: Pokemon)
      modifies p`currentHp, p`volatile, p`toxicCounter, this`log
      ensures VitalsOf(p) == Tick(old(VitalsOf(p)), p.maxHp)
      ensures p.volatile == TaggedIf(old(p.volatile), p.status)
      ensures log == old(log) + TickLog(p.status, p.name)
    {
      if p.status == Burn {
        var damage := Max(1, p.maxHp / 8);
        p.TakeDamage(damage);
        LogMessage(p.name + " was hurt by its burn!");
      } else if p.status == Poison {
        var damage := Max(1, p.maxHp / 8);
        p.TakeDamage(damage);
        LogMessage(p.name + " was hurt by poison!");
      } else if p.status == Toxic {
        if ToxicCounterTag !in p.volatile {
          p.volatile := p.volatile + {ToxicCounterTag};
          p.toxicCounter := 1;
        } else {
          p.toxicCounter := p.toxicCounter + 1;
        }
        var damage := Max(1, p.maxHp * p.toxicCounter / 16);
        p.TakeDamage(damage);
        LogMessage(p.name + " was hurt by toxic!");
      }
    }

    /**
     * _end_of_turn_effects: the loop over [p1, p2], unrolled. When both names denote the same
     * combatant it ticks twice.
     */
    method EndOfTurnEffects(p1: Pokemon, p2: Pokemon)
      modifies p1`currentHp, p1`volatile, p1`toxicCounter, p2`currentHp, p2`volatile, p2`toxicCounter, this`log
      ensures p1 != p2 ==> VitalsOf(p1) == Tick(old(VitalsOf(p1)), p1.maxHp)
                           && VitalsOf(p2) == Tick(old(VitalsOf(p2)), p2.maxHp)
      ensures p1 == p2 ==> VitalsOf(p1) == Ticks(old(VitalsOf(p1)), p1.maxHp, 2)
      ensures log == old(log) + TickLog(p1.status, p1.name) + TickLog(p2.status, p2.name)
    {
      ghost var v := VitalsOf(p1);
      StatusTick(p1);
      StatusTick(p2);
      if p1 == p2 {
        assert Ticks(v, p1.maxHp, 1) == Tick(v, p1.maxHp);
      }
    }

    /** _is_battle_over: at least one team has no combatant standing. */
    predicate IsBattleOver()
      reads this, team1, team2
      ensures IsBattleOver() <==> (forall p :: p in team1 ==> p.IsFainted())
                                  || (forall p :: p in team2 ==> p.IsFainted())
    {
      !(TeamAlive(team1) && TeamAlive(team2))
    }

    /** _end_battle: the winner line, or the draw line when both or neither team stands. */
    method EndBattle()
      modifies this`log
      ensures log == old(log) + [EndMessage(TeamAlive(team1), TeamAlive(team2))]
    {
      var alive1 := TeamAlive(team1);
      var alive2 := TeamAlive(team2);
      if alive1 && !alive2 {
        LogMessage("\nTeam 1 wins the battle!");
      } else if alive2 && !alive1 {
        LogMessage("\nTeam 2 wins the battle!");
      } else {
        LogMessage("\nThe battle ended in a draw!");
      }
    }

    /** _handle_weather_effects: only its messages. */
    method HandleWeatherEffects()
      modifies this`log
      ensures log == old(log) + WeatherLog(weather)
    {
      if weather == Sandstorm {
        LogMessage("The sandstorm rages!");
      } else if weather == Hail {
        LogMessage("The hail continues to fall!");
      }
    }

    /** _handle_terrain_effects: only its message. */
    method HandleTerrainEffects()
      modifies this`log
      ensures log == old(log) + TerrainLog(terrain)
    {
      if terrain != NoTerrain {
        LogMessage("The " + TerrainValue(terrain) + " continues to affect the battlefield!");
      }
    }

    /** One side's action inside a turn: ExecuteMove, seen only as a log extension. */
    method Act(attacker: Pokemon, move: Move, defender: Pokemon, rolls: MoveRolls)
      returns (outcome: Outcome<BattleError>)
      modifies defender`currentHp, defender`statStages, defender`status, this`log
      ensures old(log) <= log
    {
      outcome := ExecuteMove(attacker, move, defender, rolls);
    }

    /** Both moves of a turn in the order MoveOrder gives; the second only while the battle goes on. */
    method ExecuteBoth(a1: Pokemon, m1: Move, a2: Pokemon, m2: Move, rolls: TurnRolls)
      returns (outcome: Outcome<BattleError>)
      modifies a1`currentHp, a1`statStages, a1`status, a2`currentHp, a2`statStages, a2`status, this`log
      ensures old(log) <= log
    {
      var order := MoveOrder(a1, m1, a2, m2, rolls.coin);
      if order == P1First {
        outcome := Act(a1, m1, a2, rolls.first);
      } else {
        outcome := Act(a2, m2, a1, rolls.first);
      }
      if outcome.Fail? || IsBattleOver() {
        return;
      }
      if order == P1First {
        outcome := Act(a2, m2, a1, rolls.second);
      } else {
        outcome := Act(a1, m1, a2, rolls.second);
      }
    }

    /** The opening of a turn: the counter, its header, then the weather and terrain messages. */
    method OpenTurn()
      modifies this`turn, this`log
      ensures turn == old(turn) + 1
      ensures log == old(log) + [TurnHeader(turn)] + WeatherLog(weather) + TerrainLog(terrain)
    {
      turn := turn + 1;
      LogMessage(TurnHeader(turn));
      HandleWeatherEffects();
      HandleTerrainEffects();
    }

    /** A move chosen for each side, then both moves executed in order. */
    method PlayMoves(a1: Pokemon, a2: Pokemon, rolls: TurnRolls) returns (outcome: Outcome<BattleError>)
      modifies a1`currentHp, a1`statStages, a1`status, a2`currentHp, a2`statStages, a2`status, this`log
      ensures old(log) <= log
    {
      var move1 := SelectMove(a1, a2, rolls.select1);
      var move2 := SelectMove(a2, a1, rolls.select2);
      ghost var chosen := log;
      outcome := ExecuteBoth(a1, move1, a2, move2, rolls);
      assert old(log) <= chosen;
    }

    /**
     * The check after the end-of-turn effects for one side: a fainted active combatant is
     * announced and replaced by SelectReplacement's choice, which may be none.
     */
    method ReplaceIfFainted(active: Pokemon, team: seq<Pokemon>) returns (next: Option<Pokemon>)
      modifies this`log
      ensures !active.IsFainted() ==> next == Some(active) && log == old(log)
      ensures active.IsFainted() ==> next == SelectReplacement(active, team)
                                     && log == old(log) + ["\n" + active.name + " fainted!"]
      ensures next.Some? ==> !next.value.IsFainted() && (next.value == active || next.value in team)
      ensures next.None? ==> !TeamAlive(team)
    {
      next := Some(active);
      if active.IsFainted() {
        LogMessage("\n" + active.name + " fainted!");
        next := SelectReplacement(active, team);
        if next.None? {
          NoReplacementMeansTeamDown(active, team);
        }
      }
    }

    /** The end of a turn: ReplaceIfFainted for side 1, then for side 2; a missing replacement ends the battle. */
    method ReplaceFainted(a1: Pokemon, a2: Pokemon) returns (result: TurnResult)
      modifies this`log
      ensures old(log) <= log
      ensures !result.Crashed?
      ensures result.Continue? ==> !result.next1.IsFainted() && !result.next2.IsFainted()
      ensures result.Continue? ==> (result.next1 == a1 || result.next1 in team1)
                                   && (result.next2 == a2 || result.next2 in team2)
      ensures result.Continue? && !a1.IsFainted() ==> result.next1 == a1
      ensures result.Continue? && !a2.IsFainted() ==> result.next2 == a2
      ensures result.Finished? ==> IsBattleOver()
    {
      var next1 := ReplaceIfFainted(a1, team1);
      if next1.None? {
        return Finished;
      }
      var next2 := ReplaceIfFainted(a2, team2);
      if next2.None? {
        return Finished;
      }
      result := Continue(next1.value, next2.value);
    }

    /**
     * One iteration of _begin_battle's loop: OpenTurn, PlayMoves, the end-of-turn ticks, then
     * ReplaceFainted. An exception from a move effect aborts the turn. No move's PP is spent:
     * no Move object is in the frame.
     */
    method Turn(a1: Pokemon, a2: Pokemon, rolls: TurnRolls) returns (result: TurnResult)
      modifies a1`currentHp, a1`statStages, a1`status, a1`volatile, a1`toxicCounter
      modifies a2`currentHp, a2`statStages, a2`status, a2`volatile, a2`toxicCounter
      modifies this`turn, this`log
      ensures turn == old(turn) + 1
      ensures old(log) + [TurnHeader(turn)] <= log
      ensures result.Continue? ==> !result.next1.IsFainted() && !result.next2.IsFainted()
      ensures result.Continue? ==> (result.next1 == a1 || result.next1 in team1)
                                   && (result.next2 == a2 || result.next2 in team2)
      ensures result.Continue? && !a1.IsFainted() ==> result.next1 == a1
      ensures result.Continue? && !a2.IsFainted() ==> result.next2 == a2
      ensures result.Finished? ==> IsBattleOver()
    {
      OpenTurn();
      ghost var started := log;
      var outcome := PlayMoves(a1, a2, rolls);
      if outcome.Fail? {
        return Crashed(outcome.error);
      }
      EndOfTurnEffects(a1, a2);
      assert old(log) + [TurnHeader(turn)] <= started <= log;
      result := ReplaceFainted(a1, a2);
    }

  }
}
