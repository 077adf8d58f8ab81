// Held items (pokemon_battle_system/item.py): a record of optional trigger callbacks, the
// `use` rule, the Focus Sash hit rule and the registry lookup.
module Items {
  import opened Common
  import opened Text

  /**
   * The callbacks the registry attaches, as tags: the Python code stores lambdas.
   * `Callback(id)` stands for any other callable a caller may attach.
   */
  datatype ItemHook =
    | LifeOrbRecoil
    | ChoiceBandBoost
    | FocusSashEndure
    | Callback(id: nat)

  datatype Item = Item(
    name: string,
    description: string,
    onUse: Option<ItemHook>,
    onHit: Option<ItemHook>,
    onSwitchIn: Option<ItemHook>,
    onAfterMove: Option<ItemHook>,
    onBeforeMove: Option<ItemHook>,
    onFaint: Option<ItemHook>,
    onCrit: Option<ItemHook>,
    onReceiveCrit: Option<ItemHook>,
    onStatusApply: Option<ItemHook>,
    consumed: bool)

  /**
   * Item.use: without an on_use callback nothing happens and the answer is False; with one,
   * the callback runs (its own effect is not part of this model) and the answer is `consumed`.
   */
  function Use(item: Item): (used: bool)
    ensures item.onUse.None? ==> !used
    ensures item.onUse.Some? ==> used == item.consumed
  {
    if item.onUse.Some? then item.consumed else false
  }

  /** create_item: not consumed unless asked, every trigger not passed is None. */
  function CreateItem(
    name: string, description: string, consumed: bool := false,
    onUse: Option<ItemHook> := None, onHit: Option<ItemHook> := None,
    onSwitchIn: Option<ItemHook> := None, onAfterMove: Option<ItemHook> := None,
    onBeforeMove: Option<ItemHook> := None, onFaint: Option<ItemHook> := None,
    onCrit: Option<ItemHook> := None, onReceiveCrit: Option<ItemHook> := None,
    onStatusApply: Option<ItemHook> := None): (item: Item)
    ensures item.name == name && item.description == description && item.consumed == consumed
    ensures item.onUse == onUse && item.onHit == onHit && item.onSwitchIn == onSwitchIn
    ensures item.onAfterMove == onAfterMove && item.onBeforeMove == onBeforeMove
    ensures item.onFaint == onFaint && item.onCrit == onCrit
    ensures item.onReceiveCrit == onReceiveCrit && item.onStatusApply == onStatusApply
  {
    Item(name, description, onUse, onHit, onSwitchIn, onAfterMove, onBeforeMove, onFaint,
         onCrit, onReceiveCrit, onStatusApply, consumed)
  }

  const LifeOrb: Item :=
    CreateItem("Life Orb",
               "Powers up moves, but the holder loses 1/10 of its max HP after each move.",
               onAfterMove := Some(LifeOrbRecoil))

  const ChoiceBand: Item :=
    CreateItem("Choice Band",
               "Boosts the power of physical moves by 50%, but restricts the user to one move.",
               onBeforeMove := Some(ChoiceBandBoost))

  const FocusSash: Item :=
    CreateItem("Focus Sash",
               "If the holder has full HP and would be KO'd by an attack, it survives with 1 HP.",
               onHit := Some(FocusSashEndure), consumed := true)

  /** ITEMS: the registry, keyed by lower-case name with underscores. */
  const Registry: map<string, Item> :=
    map["life_orb" := LifeOrb, "choice_band" := ChoiceBand, "focus_sash" := FocusSash]

  /** The defaults of create_item and the one item built with consumed=True. */
  lemma RegistryContents()
    ensures Registry.Keys == {"life_orb", "choice_band", "focus_sash"}
    ensures !LifeOrb.consumed && !ChoiceBand.consumed && FocusSash.consumed
    ensures !Use(LifeOrb) && !Use(FocusSash)
  {
  }

  /** The key get_item looks up: lower case, spaces turned into underscores. */
  function ItemKey(name: string): (key: string)
    ensures ' ' !in key
    ensures |key| == |name|
  {
    ReplaceSameLength(Lower(name), ' ', '_');
    Replace(Lower(name), ' ', "_")
  }

  lemma {:induction false} ReplaceSameLength(s: string, from: char, to: char)
    ensures |Replace(s, from, [to])| == |s|
  {
    if s != [] {
      ReplaceSameLength(s[1..], from, to);
    }
  }

  /** get_item: the registry entry under ItemKey(name), or None. */
  function GetItem(name: string): (r: Option<Item>)
    ensures r.Some? <==> ItemKey(name) in Registry
    ensures r.Some? ==> r.value == Registry[ItemKey(name)]
  {
    var key := ItemKey(name);
    if key in Registry then Some(Registry[key]) else None
  }

  /** Lowering does not touch spaces or underscores, so it commutes with the space rewrite. */
  lemma {:induction false} LowerReplaceCommute(s: string)
    ensures Lower(Replace(s, ' ', "_")) == Replace(Lower(s), ' ', "_")
  {
    if s != [] {
      var low := Lower(s);
      LowerReplaceCommute(s[1..]);
      assert low[1..] == Lower(s[1..]);
      var head := if s[0] == ' ' then "_" else [s[0]];
      var lowHead := if low[0] == ' ' then "_" else [low[0]];
      assert Lower(head) == lowHead;
      assert Replace(s, ' ', "_") == head + Replace(s[1..], ' ', "_");
      assert Replace(low, ' ', "_") == lowHead + Replace(low[1..], ' ', "_");
      LowerConcat(head, Replace(s[1..], ' ', "_"));
    }
  }

  /** Letter case and the choice between space and underscore do not matter to get_item. */
  lemma GetItemNormalises(name: string)
    ensures GetItem(Lower(name)) == GetItem(name)
    ensures GetItem(Replace(name, ' ', "_")) == GetItem(name)
  {
    LowerIdempotent(name);
    LowerReplaceCommute(name);
    ReplaceAbsent(Replace(Lower(name), ' ', "_"), ' ', "_");
  }

  /** The key of a two-word name: both words lowered, joined by an underscore. */
  lemma TwoWordKey(a: string, b: string)
    requires ' ' !in a && ' ' !in b
    ensures ItemKey(a + " " + b) == Lower(a) + "_" + Lower(b)
  {
    var la, lb := Lower(a), Lower(b);
    LowerConcat(a + " ", b);
    LowerConcat(a, " ");
    assert Lower(" ") == " ";
    assert Lower(a + " " + b) == la + " " + lb;
    assert ' ' !in la by {
      forall i | 0 <= i < |la| ensures la[i] != ' ' {
        assert a[i] != ' ';
      }
    }
    assert ' ' !in lb by {
      forall i | 0 <= i < |lb| ensures lb[i] != ' ' {
        assert b[i] != ' ';
      }
    }
    ReplaceConcat(la + " ", lb, ' ', "_");
    ReplaceConcat(la, " ", ' ', "_");
    ReplaceAbsent(la, ' ', "_");
    ReplaceAbsent(lb, ' ', "_");
    assert Replace(" ", ' ', "_") == "_";
  }

  lemma FocusSashKey()
    ensures ItemKey("Focus Sash") == "focus_sash"
  {
    assert Lower("Focus") == "focus" && Lower("Sash") == "sash";
    TwoWordKey("Focus", "Sash");
    assert "Focus Sash" == "Focus" + " " + "Sash";
    assert "focus" + "_" + "sash" == "focus_sash";
  }

  lemma FocusSashByDisplayName()
    ensures GetItem("Focus Sash") == Some(FocusSash)
  {
    FocusSashKey();
    RegistryContents();
    assert "focus_sash" in Registry.Keys;
  }

  /** A name whose key is none of the three registry keys finds nothing. */
  lemma UnknownItemIsNone(name: string)
    requires ItemKey(name) !in {"life_orb", "choice_band", "focus_sash"}
    ensures GetItem(name) == None
  {
    RegistryContents();
  }

  /** An item the registry does not define, by its display name. */
  lemma LeftoversIsNone()
    ensures GetItem("Leftovers") == None
  {
    var low := Lower("Leftovers");
    assert low == "leftovers";
    ReplaceAbsent(low, ' ', "_");
  }

  /**
   * Focus Sash's on_hit as written: the damage that reaches the holder. At full HP a hit that
   * would knock it out is turned into a hit of 1, otherwise the damage passes unchanged.
   */
  function FocusSashOnHit(currentHp: int, maxHp: int, damage: int): (r: int)
    ensures currentHp == maxHp && damage >= currentHp ==> r == 1
    ensures !(currentHp == maxHp && damage >= currentHp) ==> r == damage
  {
    if currentHp == maxHp && damage >= currentHp then 1 else damage
  }

  /**
   * The item's description promises survival with 1 HP; the rule as written leaves a full-HP
   * holder with all but 1 of its HP instead.
   */
  lemma FocusSashLeavesMoreThanOneHp()
    ensures 100 - FocusSashOnHit(100, 100, 150) == 99
  {
  }

  /** The rule the description states: a knock-out hit at full HP leaves exactly 1 HP. */
  function FocusSashOnHitIntended(currentHp: int, maxHp: int, damage: int): (r: int)
    ensures currentHp == maxHp && damage >= currentHp && currentHp >= 1 ==> currentHp - r == 1
    ensures !(currentHp == maxHp && damage >= currentHp) ==> r == damage
  {
    if currentHp == maxHp && damage >= currentHp then currentHp - 1 else damage
  }

  /** With the intended rule a full-HP holder is never knocked out by one hit. */
  lemma FocusSashIntendedSurvives(hp: int, damage: int)
    requires hp >= 1
    ensures hp - FocusSashOnHitIntended(hp, hp, damage) >= 1
  {
  }
}
