// The sprite manager (pokemon_battle_system/gui/sprite_manager.py): the name normaliser and
// cache key of get_pokemon_sprite, the in-memory cache, the sprite-type guard of the
// download and the early returns of scale_sprite. Files, the network and pygame surfaces
// are outside the model; what they yield is passed in.
module Sprites {
  import opened Common
  import opened Text

  /** A loaded image, as far as the manager looks at it: its size in pixels. */
  datatype Surface = Surface(width: nat, height: nat)

  /** The character rewrites of get_pokemon_sprite, in the order the source applies them. */
  function Rewrite(name: string): string
  {
    var lowered := Lower(name);
    var female := Replace(lowered, '♀', "-f");
    var male := Replace(female, '♂', "-m");
    var dashed := Replace(male, ' ', "-");
    var undotted := Replace(dashed, '.', "");
    Replace(undotted, ':', "")
  }

  /**
   * `special_names.get(name, name)`: the names the sprite source files differently, in
   * the table's order; a name that is not a key passes through unchanged.
   */
  function Special(name: string): string
  {
    if name in SpecialNames then SpecialNames[name] else name
  }

  /** `special_names`: the spellings the sprite source uses, in the table's order. */
  const SpecialNames: map<string, string> :=
    map["nidoranf" := "nidoran-f", "nidoranm" := "nidoran-m", "farfetchd" := "farfetchd",
        "mrmime" := "mr-mime", "mimejr" := "mime-jr", "typenull" := "type-null",
        "tapu-koko" := "tapu-koko", "tapu-lele" := "tapu-lele", "tapu-bulu" := "tapu-bulu",
        "tapu-fini" := "tapu-fini", "mr-rime" := "mr-rime", "sirfetchd" := "sirfetchd",
        "mr-mime-galar" := "mr-mime-galar", "mr-rime-galar" := "mr-rime-galar"]

  /**
   * The name get_pokemon_sprite looks sprites up by: the rewrites, then the special names.
   * It holds no space, dot, colon, gender sign or upper-case letter.
   */
  function Normalise(name: string): (r: string)
    ensures Clean(r)
  {
    RewriteIsClean(name);
    SpecialKeepsClean(Rewrite(name));
    Special(Rewrite(name))
  }

  /** f"{pokemon_name}_{sprite_type}": the normalised name, an underscore, the sprite kind. */
  function CacheKey(name: string, spriteType: string): (r: string)
    ensures |r| == |Normalise(name)| + 1 + |spriteType|
    ensures r[..|Normalise(name)|] == Normalise(name) && r[|Normalise(name)|] == '_'
    ensures r[|Normalise(name)| + 1..] == spriteType
  {
    Normalise(name) + "_" + spriteType
  }

  /** No upper-case letter, space, dot, colon or gender sign. */
  predicate Clean(s: string)
  {
    forall i :: 0 <= i < |s| ==> !IsUpper(s[i]) && s[i] !in " .:♀♂"
  }

  /** Every character of a rewritten name comes from the lowered name or from "-f" and "-m". */
  lemma RewriteIsClean(name: string)
    ensures Clean(Rewrite(name))
  {
    var lowered := Lower(name);
    LowerHasNoUpper(name);
    var female := Replace(lowered, '♀', "-f");
    var male := Replace(female, '♂', "-m");
    var dashed := Replace(male, ' ', "-");
    var undotted := Replace(dashed, '.', "");
    var r := Replace(undotted, ':', "");
    forall i | 0 <= i < |r|
      ensures !IsUpper(r[i]) && r[i] !in " .:♀♂"
    {
      var c := r[i];
      assert c in r;
      assert c in undotted && c != ':';
      assert c in dashed && c != '.';
      assert c in "-" || (c in male && c != ' ');
      assert c in "-m" || (c in female && c != '♂');
      assert c in "-m" || c in "-f" || (c in lowered && c != '♀');
      if c in lowered {
        var j :| 0 <= j < |lowered| && lowered[j] == c;
      }
    }
  }

  /** Only five keys of the table rename anything. */
  lemma SpecialTargets(name: string)
    ensures Special(name) == name || Special(name) == "nidoran-f" || Special(name) == "nidoran-m"
         || Special(name) == "mr-mime" || Special(name) == "mime-jr" || Special(name) == "type-null"
  {
  }

  /** The five renamed spellings are clean. */
  lemma CleanTargets()
    ensures Clean("nidoran-f") && Clean("nidoran-m") && Clean("mr-mime")
    ensures Clean("mime-jr") && Clean("type-null")
  {
  }

  /** The table maps a clean name to a clean name. */
  lemma SpecialKeepsClean(name: string)
    requires Clean(name)
    ensures Clean(Special(name))
  {
    SpecialTargets(name);
    CleanTargets();
  }

  /** The table is settled: looking a result up again gives it back. */
  lemma SpecialSettled(name: string)
    ensures Special(Special(name)) == Special(name)
  {
  }

  /** The rewrites leave a clean name as it is. */
  lemma RewriteKeepsClean(s: string)
    requires Clean(s)
    ensures Rewrite(s) == s
  {
    LowerKeepsLowercase(s);
    ReplaceAbsent(s, '♀', "-f");
    ReplaceAbsent(s, '♂', "-m");
    ReplaceAbsent(s, ' ', "-");
    ReplaceAbsent(s, '.', "");
    ReplaceAbsent(s, ':', "");
  }

  /** Normalising twice is normalising once: a normalised name is its own sprite name. */
  lemma NormaliseIdempotent(name: string)
    ensures Normalise(Normalise(name)) == Normalise(name)
  {
    var n := Normalise(name);
    RewriteKeepsClean(n);
    SpecialSettled(Rewrite(name));
  }

  /** The rewrites work character by character: a name rewrites piece by piece. */
  lemma RewriteConcat(a: string, b: string)
    ensures Rewrite(a + b) == Rewrite(a) + Rewrite(b)
  {
    LowerConcat(a, b);
    var la, lb := Lower(a), Lower(b);
    ReplaceConcat(la, lb, '♀', "-f");
    var fa, fb := Replace(la, '♀', "-f"), Replace(lb, '♀', "-f");
    ReplaceConcat(fa, fb, '♂', "-m");
    var ma, mb := Replace(fa, '♂', "-m"), Replace(fb, '♂', "-m");
    ReplaceConcat(ma, mb, ' ', "-");
    var da, db := Replace(ma, ' ', "-"), Replace(mb, ' ', "-");
    ReplaceConcat(da, db, '.', "");
    var ua, ub := Replace(da, '.', ""), Replace(db, '.', "");
    ReplaceConcat(ua, ub, ':', "");
  }

  /** The female sign becomes "-f". */
  lemma RewriteFemaleSign()
    ensures Rewrite("♀") == "-f"
  {
    assert Lower("♀") == "♀";
    assert Replace("♀", '♀', "-f") == "-f";
    ReplaceAbsent("-f", '♂', "-m");
    ReplaceAbsent("-f", ' ', "-");
    ReplaceAbsent("-f", '.', "");
    ReplaceAbsent("-f", ':', "");
  }

  /** The male sign becomes "-m". */
  lemma RewriteMaleSign()
    ensures Rewrite("♂") == "-m"
  {
    assert Lower("♂") == "♂";
    ReplaceAbsent("♂", '♀', "-f");
    assert Replace("♂", '♂', "-m") == "-m";
    ReplaceAbsent("-m", ' ', "-");
    ReplaceAbsent("-m", '.', "");
    ReplaceAbsent("-m", ':', "");
  }

  /** A space becomes a dash. */
  lemma RewriteSpace()
    ensures Rewrite(" ") == "-"
  {
    assert Lower(" ") == " ";
    ReplaceAbsent(" ", '♀', "-f");
    ReplaceAbsent(" ", '♂', "-m");
    assert Replace(" ", ' ', "-") == "-";
    ReplaceAbsent("-", '.', "");
    ReplaceAbsent("-", ':', "");
  }

  /** Dots and colons are dropped. */
  lemma RewriteDropsPunctuation()
    ensures Rewrite(".") == "" && Rewrite(":") == ""
  {
    assert Lower(".") == ".";
    ReplaceAbsent(".", '♀', "-f");
    ReplaceAbsent(".", '♂', "-m");
    ReplaceAbsent(".", ' ', "-");
    assert Replace(".", '.', "") == "";
    assert Replace("", ':', "") == "";
    assert Lower(":") == ":";
    ReplaceAbsent(":", '♀', "-f");
    ReplaceAbsent(":", '♂', "-m");
    ReplaceAbsent(":", ' ', "-");
    ReplaceAbsent(":", '.', "");
    assert Replace(":", ':', "") == "";
  }

  /** An upper-case letter is lowered. */
  lemma RewriteUpper(c: char)
    requires IsUpper(c)
    ensures Rewrite([c]) == [LowerChar(c)]
  {
    var l := [LowerChar(c)];
    assert Lower([c]) == l;
    assert !IsUpper(LowerChar(c)) && LowerChar(c) !in " .:♀♂";
    assert Clean(l);
    RewriteKeepsClean(l);
    LowerKeepsLowercase(l);
    assert Rewrite([c]) == Rewrite(l);
  }

  /** The fourteen keys of `special_names`. */
  const SpecialKeys: set<string> := SpecialNames.Keys

  /** A name outside the table passes through unchanged. */
  lemma SpecialPassesThrough(name: string)
    requires name !in SpecialKeys
    ensures Special(name) == name
  {
  }

  /** Only a key of the table can be renamed, and the five renaming keys are renamed. */
  lemma NormaliseUsesTable(name: string)
    ensures Special(name) != name ==> name in SpecialKeys
    ensures Special("mrmime") == "mr-mime" && Special("nidoranf") == "nidoran-f"
    ensures Special("nidoranm") == "nidoran-m" && Special("mimejr") == "mime-jr"
    ensures Special("typenull") == "type-null"
  {
  }

  /** Two sprite kinds of one name never share a cache entry. */
  lemma CacheKeySeparatesKinds(name: string, t1: string, t2: string)
    requires t1 != t2
    ensures CacheKey(name, t1) != CacheKey(name, t2)
  {
    var prefix := Normalise(name) + "_";
    assert CacheKey(name, t1)[|prefix|..] == t1;
    assert CacheKey(name, t2)[|prefix|..] == t2;
  }

  /** The sprite kinds _download_pokemon_sprite knows a path for. */
  const SpriteKinds: set<string> := {"front_default", "front_shiny", "back_default", "back_shiny"}

  /** What loading the cache file gives: no file, a surface, or pygame.error. */
  datatype FileLoad = NoFile | Loaded(surface: Surface) | LoadError

  /**
   * scale_sprite's early returns: None for None, the sprite itself when it fits. The
   * smoothscale branch is not modelled and gives None here.
   */
  function ScaleSprite(sprite: Option<Surface>, maxSize: int): (r: Option<Option<Surface>>)
    ensures sprite.None? ==> r == Some(None)
    ensures sprite.Some? && sprite.value.width <= maxSize && sprite.value.height <= maxSize
            ==> r == Some(sprite)
    ensures r.Some? ==> r.value == sprite
    ensures sprite.Some? && r.Some? ==> sprite.value.width <= maxSize && sprite.value.height <= maxSize
  {
    if sprite.None? then Some(None)
    else if sprite.value.width <= maxSize && sprite.value.height <= maxSize then Some(sprite)
    else None
  }

  /** A sprite that fits a size fits every larger size, and comes back unchanged. */
  lemma ScaleSpriteMonotone(sprite: Option<Surface>, m: int, m': int)
    requires ScaleSprite(sprite, m).Some? && m <= m'
    ensures ScaleSprite(sprite, m') == ScaleSprite(sprite, m) == Some(sprite)
  {
  }

  class SpriteManager {
    var cache: map<string, Surface>

    /** __init__: an empty in-memory cache (the cache directory is not modelled). */
    constructor()
      ensures cache == map[]
    {
      cache := map[];
    }

    /**
     * _download_pokemon_sprite: an unknown sprite kind gives None before any download; a
     * successful download (passed in as `download`) is cached under `key` and returned.
     */
    method DownloadSprite(spriteType: string, key: string, download: Option<Surface>)
      returns (r: Option<Surface>)
      modifies this
      ensures spriteType !in SpriteKinds ==> r.None? && cache == old(cache)
      ensures spriteType in SpriteKinds ==> r == download
      ensures spriteType in SpriteKinds && download.Some? ==> cache == old(cache)[key := download.value]
      ensures download.None? ==> cache == old(cache)
    {
      if spriteType !in SpriteKinds {
        return None;
      }
      if download.None? {
        return None;
      }
      cache := cache[key := download.value];
      r := download;
    }

    /**
     * get_pokemon_sprite: a key already in the cache answers from it and touches nothing
     * else; otherwise a loadable cache file is stored and returned, and failing that the
     * download is tried.
     */
    method GetPokemonSprite(name: string, spriteType: string, file: FileLoad, download: Option<Surface>)
      returns (r: Option<Surface>)
      modifies this
      ensures var key := CacheKey(name, spriteType);
              old(key in cache) ==> r == Some(old(cache)[key]) && cache == old(cache)
      ensures var key := CacheKey(name, spriteType);
              old(key !in cache) && file.Loaded? ==> r == Some(file.surface) && cache == old(cache)[key := file.surface]
      ensures var key := CacheKey(name, spriteType);
              old(key !in cache) && !file.Loaded? && spriteType !in SpriteKinds ==> r.None? && cache == old(cache)
      ensures var key := CacheKey(name, spriteType);
              old(key !in cache) && !file.Loaded? && spriteType in SpriteKinds ==> r == download
      ensures var key := CacheKey(name, spriteType);
              old(key !in cache) && !file.Loaded? && spriteType in SpriteKinds && download.Some?
              ==> cache == old(cache)[key := download.value]
      ensures var key := CacheKey(name, spriteType);
              old(key !in cache) && !file.Loaded? && download.None? ==> r.None? && cache == old(cache)
      ensures var key := CacheKey(name, spriteType);
              r.Some? ==> key in cache && cache[key] == r.value
      ensures var key := CacheKey(name, spriteType);
              forall k :: k in old(cache) && k != key ==> k in cache && cache[k] == old(cache)[k]
    {
      var pokemonName := Normalise(name);
      var key := pokemonName + "_" + spriteType;
      if key in cache {
        return Some(cache[key]);
      }
      if file.Loaded? {
        cache := cache[key := file.surface];
        return Some(file.surface);
      }
      r := DownloadSprite(spriteType, key, download);
    }
  }
}
