// Trainers (pokemon_battle_system/trainer.py): a party of combatants and a pointer to the
// active one, both reassigned in place.
module Trainers {
  import opened Common
  import opened Pokemons

  /** The largest party add_pokemon grows to. */
  const MaxPartySize := 6

  /** `any(...)` over a party asked by position or by member. */
  lemma SomeMemberStanding(ps: seq<Pokemon>)
    ensures (exists i :: 0 <= i < |ps| && ps[i].currentHp > 0) <==> !forall p :: p in ps ==> p.IsFainted()
  {
    if i :| 0 <= i < |ps| && ps[i].currentHp > 0 {
      assert ps[i] in ps;
    }
  }

  class Trainer {
    const name: string
    var party: seq<Pokemon>
    /** `current_pokemon`; null stands for None. */
    var current: Pokemon?
    /** The item bag: item name to quantity. */
    var items: map<string, int>

    /**
     * The active pointer is consistent with the party: a non-empty party always has an
     * active combatant, and the active combatant is one of the party's members.
     */
    ghost predicate Consistent()
      reads this
    {
      (|party| > 0 ==> current != null) && (current != null ==> current in party)
    }

    /** __post_init__: the first member becomes active when none was given. */
    constructor(name: string, party: seq<Pokemon> := [], current: Pokemon? := null,
                items: map<string, int> := map[])
      ensures this.name == name && this.party == party && this.items == items
      ensures current == null && party != [] ==> this.current == party[0]
      ensures current != null || party == [] ==> this.current == current
      ensures current == null || current in party ==> Consistent()
    {
      this.name := name;
      this.party := party;
      this.items := items;
      this.current := current;
      if party != [] && current == null {
        this.current := party[0];
      }
    }

    /** switch_pokemon: succeeds exactly for an index into the party whose member has HP. */
    method SwitchPokemon(index: int) returns (switched: bool)
      modifies this`current
      ensures switched <==> 0 <= index < |party| && party[index].currentHp > 0
      ensures switched ==> current == party[index]
      ensures !switched ==> current == old(current)
      ensures old(Consistent()) ==> Consistent()
    {
      if 0 <= index < |party| {
        if party[index].currentHp > 0 {
          current := party[index];
          return true;
        }
      }
      return false;
    }

    /** has_usable_pokemon: some member of the party still has HP. */
    predicate HasUsablePokemon()
      reads this, party
      ensures !HasUsablePokemon() <==> forall p :: p in party ==> p.IsFainted()
    {
      SomeMemberStanding(party);
      exists i :: 0 <= i < |party| && party[i].currentHp > 0
    }

    /**
     * get_available_pokemon: the members with HP that are not equal to the active one,
     * in party order.
     */
    function GetAvailablePokemon(): (r: seq<Pokemon>)
      reads this, Footprint(party + OptionalSeq(current))
      ensures |r| <= |party|
      ensures forall p :: p in r ==>
                p in party && p.currentHp > 0 && !(current != null && SameAs(p, current))
      ensures forall p :: p in party && p.currentHp > 0 && !(current != null && SameAs(p, current))
                ==> p in r
    {
      AliveOthers(party, current)
    }

    /**
     * get_available_pokemon keeps party order: of two members that are both available, the
     * earlier one in the party comes first in the list.
     */
    lemma AvailableInPartyOrder(i: nat, j: nat)
      requires i < j < |party|
      requires AliveAndDistinct(party[i], current) && AliveAndDistinct(party[j], current)
      ensures exists x, y :: 0 <= x < y < |GetAvailablePokemon()|
                && GetAvailablePokemon()[x] == party[i] && GetAvailablePokemon()[y] == party[j]
    {
      AliveOthersKeepsOrder(party, current, i, j);
      var r := AliveOthers(party, current);
      var x, y :| 0 <= x < y < |r| && r[x] == party[i] && r[y] == party[j];
      assert GetAvailablePokemon() == r;
    }

    /**
     * get_available_pokemon filters member by member: the list for the whole party is the list
     * for its first k members followed by the list for the rest.
     */
    lemma AvailableSplits(k: nat)
      requires k <= |party|
      ensures GetAvailablePokemon() == AliveOthers(party[..k], current) + AliveOthers(party[k..], current)
    {
      assert party == party[..k] + party[k..];
      AliveOthersConcat(party[..k], party[k..], current);
    }

    /**
     * has_usable_pokemon against get_available_pokemon: a bench member with HP is a usable
     * member, and once the active one is fainted or missing the two agree.
     */
    lemma UsableAndAvailable()
      ensures GetAvailablePokemon() != [] ==> HasUsablePokemon()
      ensures !HasUsablePokemon() ==> GetAvailablePokemon() == []
      ensures (HasUsablePokemon() && (current == null || current.IsFainted()))
              ==> GetAvailablePokemon() != []
    {
      var r := GetAvailablePokemon();
      if r != [] {
        assert r[0] in r;
        var i :| 0 <= i < |party| && party[i] == r[0];
      }
      if HasUsablePokemon() && (current == null || current.IsFainted()) {
        var i :| 0 <= i < |party| && party[i].currentHp > 0;
        assert party[i] in party;
        assert !(current != null && SameAs(party[i], current));
        assert party[i] in r;
      }
    }

    /**
     * add_pokemon: appended only while the party has fewer than six members; it becomes
     * active when nothing was.
     */
    method AddPokemon(p: Pokemon)
      modifies this`party, this`current
      ensures |old(party)| < MaxPartySize ==> party == old(party) + [p]
      ensures |old(party)| < MaxPartySize && old(current) == null ==> current == p
      ensures |old(party)| >= MaxPartySize ==> party == old(party)
      ensures |old(party)| >= MaxPartySize || old(current) != null ==> current == old(current)
      ensures |party| <= Max(MaxPartySize, |old(party)|)
      ensures old(Consistent()) ==> Consistent()
    {
      if |party| < MaxPartySize {
        party := party + [p];
        if current == null {
          current := p;
        }
      }
    }

    /**
     * remove_pokemon: the first member equal to `p` leaves the party; when the active one
     * equals `p`, the new first member (or nothing) becomes active.
     */
    method RemovePokemon(p: Pokemon) returns (removed: bool)
      modifies this`party, this`current
      ensures var i := old(IndexOf(Values(party), p.Value()));
              (removed <==> i.Some?)
              && (i.None? ==> party == old(party) && current == old(current))
              && (i.Some? ==> party == RemoveAt(old(party), i.value))
      ensures var hit := removed && old(current != null && current.Value() == p.Value());
              (hit ==> current == (if party == [] then null else party[0]))
              && (!hit ==> current == old(current))
      ensures old(Consistent()) ==> Consistent()
    {
      var values := Values(party);
      var i := IndexOf(values, p.Value());
      if i.None? {
        return false;
      }
      var hit := current != null && current.Value() == p.Value();
      if current != null && current in party && !hit {
        RemoveKeepsUnequal(party, i.value, current);
      }
      party := RemoveAt(party, i.value);
      if hit {
        current := if party == [] then null else party[0];
      }
      return true;
    }
  }

  /** The sequence without its element at position `i`, as `list.remove` leaves it. */
  function RemoveAt<T>(ps: seq<T>, i: nat): (r: seq<T>)
    requires i < |ps|
    ensures |r| == |ps| - 1
    ensures forall k :: 0 <= k < i ==> r[k] == ps[k]
    ensures forall k :: i <= k < |r| ==> r[k] == ps[k + 1]
  {
    ps[..i] + ps[i + 1..]
  }

  /**
   * Removing the element at position `i` keeps every member whose value differs from the
   * value at that position.
   */
  lemma RemoveKeepsUnequal(ps: seq<Pokemon>, i: nat, c: Pokemon)
    requires i < |ps| && c in ps && c.Value() != Values(ps)[i]
    ensures c in RemoveAt(ps, i)
  {
    ValuesAt(ps, i);
    var j :| 0 <= j < |ps| && ps[j] == c;
    if j < i {
      assert RemoveAt(ps, i)[j] == c;
    } else {
      assert RemoveAt(ps, i)[j - 1] == c;
    }
  }
}
