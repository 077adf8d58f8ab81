// The enumerations of pokemon_battle_system/enums.py, with the `.value` of each member.
module Enums {
  import opened Common

  datatype MoveCategory = Physical | Special | Status

  function CategoryValue(c: MoveCategory): string
  {
    match c
    case Physical => "Physical"
    case Special => "Special"
    case Status => "Status"
  }

  datatype Weather = Clear | Rain | HarshSun | Sandstorm | Hail | Fog

  function WeatherValue(w: Weather): string
  {
    match w
    case Clear => "Clear Skies"
    case Rain => "Rain"
    case HarshSun => "Harsh Sunlight"
    case Sandstorm => "Sandstorm"
    case Hail => "Hail"
    case Fog => "Fog"
  }

  /** Terrain.NONE is `NoTerrain` here. */
  datatype Terrain = NoTerrain | ElectricTerrain | GrassyTerrain | MistyTerrain | PsychicTerrain

  function TerrainValue(t: Terrain): string
  {
    match t
    case NoTerrain => "None"
    case ElectricTerrain => "Electric Terrain"
    case GrassyTerrain => "Grassy Terrain"
    case MistyTerrain => "Misty Terrain"
    case PsychicTerrain => "Psychic Terrain"
  }

  datatype SideCondition =
    Spikes | ToxicSpikes | StealthRock | StickyWeb | Tailwind | LightScreen | Reflect | AuroraVeil

  /** The eight non-volatile conditions; StatusCondition.NONE is `NoStatus` here. */
  datatype StatusCondition = NoStatus | Poison | Toxic | Burn | Freeze | Paralysis | Sleep | Fainted

  /** StatusCondition.value: NONE carries Python's None, the others a lower-case word. */
  function StatusValue(s: StatusCondition): Option<string>
  {
    match s
    case NoStatus => None
    case Poison => Some("poison")
    case Toxic => Some("toxic")
    case Burn => Some("burn")
    case Freeze => Some("freeze")
    case Paralysis => Some("paralysis")
    case Sleep => Some("sleep")
    case Fainted => Some("fainted")
  }

  /** StatusCondition(value): the member with that value, or None where Python raises ValueError. */
  function StatusFromValue(v: Option<string>): (r: Option<StatusCondition>)
    ensures r.Some? ==> StatusValue(r.value) == v
  {
    match v
    case None => Some(NoStatus)
    case Some(w) =>
      if w == "poison" then Some(Poison)
      else if w == "toxic" then Some(Toxic)
      else if w == "burn" then Some(Burn)
      else if w == "freeze" then Some(Freeze)
      else if w == "paralysis" then Some(Paralysis)
      else if w == "sleep" then Some(Sleep)
      else if w == "fainted" then Some(Fainted)
      else None
  }

  /** Every member is found again from its own value. */
  lemma StatusValueRoundTrip(s: StatusCondition)
    ensures StatusFromValue(StatusValue(s)) == Some(s)
  {
  }

  /** The 33 members of VolatileStatus. */
  datatype VolatileStatus =
    | Confused | Flinch | LeechSeed | PerishSong | Taunt | Encore | Disable | Torment
    | Identified | Telekinesis | HealBlock | Embargo | PowerTrick | Illusion | AquaRing
    | Rooted | MagicCoat | Substitute | DestinyBond | Grudge | Nightmare | Cursed | Ember
    | Wrap | Minimize | Charging | Recharge | Rampage | Protect | Endure | FocusEnergy
    | LockedIn | MagnetRise
}
