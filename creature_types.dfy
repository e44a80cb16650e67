/**
 * Normalisation of an enemy record (one JSON object per enemy): decide its
 * creature_type from the folder it sits in (or, for summons, from its id),
 * add element_subtype for the five elementals, report whether anything
 * changed, and when it did, put the record's keys in the house order.
 * Reading and writing the JSON files is not modelled.
 */
module CreatureTypes {
  import opened Wrappers

  /** A JSON value, as far as this script looks at values: a string or any other value. */
  datatype Value = Str(s: string) | Other(code: int)

  predicate Distinct(s: seq<string>)
  {
    forall i, j :: 0 <= i < j < |s| ==> s[i] != s[j]
  }

  /** A JSON object as the parser returns it: its keys in insertion order, and their values. */
  datatype Dict = Dict(keys: seq<string>, vals: map<string, Value>) {

    ghost predicate Valid()
    {
      Distinct(keys) && forall k :: k in vals <==> k in keys
    }

    /** d.get(k) */
    function Get(k: string): Option<Value>
    {
      if k in vals then Some(vals[k]) else None
    }

    /** d[k] = v: an existing key keeps its position and a new key goes last. */
    function Set(k: string, v: Value): (d: Dict)
      requires Valid()
      ensures d.Valid()
      ensures d.vals == vals[k := v]
      ensures d.keys == if k in vals then keys else keys + [k]
    {
      Dict(if k in vals then keys else keys + [k], vals[k := v])
    }
  }

  // ---------------------------------------------------------------------------
  // Key order
  // ---------------------------------------------------------------------------

  /** The house key order, written in three parts of ten keys. */
  const PreferredOrder: seq<string> := PreferredOrder0 + PreferredOrder1 + PreferredOrder2

  const PreferredOrder0: seq<string> := [
    "id",
    "name",
    "description",
    "cr",
    "ascii_char",
    "ascii_color",
    "creature_type",
    "element_subtype",
    "stats",
    "attributes"
  ]

  const PreferredOrder1: seq<string> := [
    "base_health",
    "base_damage",
    "armor",
    "elemental_resistances",
    "yields",
    "behavior",
    "faction",
    "loot_table",
    "xp_value",
    "spawn_biomes"
  ]

  const PreferredOrder2: seq<string> := [
    "spawn_dungeons",
    "spawn_density_overworld",
    "spawn_density_dungeon",
    "min_spawn_level",
    "max_spawn_level",
    "feared_components",
    "fear_distance",
    "summon_only",
    "abilities",
    "spellcaster"
  ]

  /** No key occurs in both sequences. */
  predicate Apart(a: seq<string>, b: seq<string>)
  {
    forall i, j :: 0 <= i < |a| && 0 <= j < |b| ==> a[i] != b[j]
  }

  lemma PreferredPart0Distinct() ensures |PreferredOrder0| == 10 && Distinct(PreferredOrder0) {}
  lemma PreferredPart1Distinct() ensures |PreferredOrder1| == 10 && Distinct(PreferredOrder1) {}
  lemma PreferredPart2Distinct() ensures |PreferredOrder2| == 10 && Distinct(PreferredOrder2) {}
  lemma PreferredParts01Apart() ensures Apart(PreferredOrder0, PreferredOrder1) {}
  lemma PreferredParts02Apart() ensures Apart(PreferredOrder0, PreferredOrder2) {}
  lemma PreferredParts12Apart() ensures Apart(PreferredOrder1, PreferredOrder2) {}

  lemma DistinctAppend(a: seq<string>, b: seq<string>)
    requires Distinct(a) && Distinct(b) && Apart(a, b)
    ensures Distinct(a + b)
  {
    var s := a + b;
    forall i, j | 0 <= i < j < |s| ensures s[i] != s[j] {
      if j < |a| {
        assert s[i] == a[i] && s[j] == a[j];
      } else if i < |a| {
        assert s[i] == a[i] && s[j] == b[j - |a|];
      } else {
        assert s[i] == b[i - |a|] && s[j] == b[j - |a|];
      }
    }
  }

  /** The 30 preferred keys are pairwise different. */
  lemma PreferredOrderDistinct()
    ensures |PreferredOrder| == 30 && Distinct(PreferredOrder)
  {
    var p0, p1, p2 := PreferredOrder0, PreferredOrder1, PreferredOrder2;
    PreferredPart0Distinct();
    PreferredPart1Distinct();
    PreferredPart2Distinct();
    PreferredParts01Apart();
    PreferredParts02Apart();
    PreferredParts12Apart();
    DistinctAppend(p0, p1);
    forall i, j | 0 <= i < |p0 + p1| && 0 <= j < |p2| ensures (p0 + p1)[i] != p2[j] {
      if i < |p0| {
        assert (p0 + p1)[i] == p0[i];
      } else {
        assert (p0 + p1)[i] == p1[i - |p0|];
      }
    }
    DistinctAppend(p0 + p1, p2);
  }

  /** The elements of s that occur in t, in the order of s. */
  function Keep(s: seq<string>, t: seq<string>): seq<string>
  {
    if s == [] then [] else Keep(s[..|s| - 1], t) + (if s[|s| - 1] in t then [s[|s| - 1]] else [])
  }

  /** The elements of s that do not occur in t, in the order of s. */
  function Drop(s: seq<string>, t: seq<string>): seq<string>
  {
    if s == [] then [] else Drop(s[..|s| - 1], t) + (if s[|s| - 1] !in t then [s[|s| - 1]] else [])
  }

  /** The order reorder_keys produces: the preferred keys present, then every other key as it came. */
  function OrderKeys(keys: seq<string>, preferred: seq<string>): seq<string>
  {
    Keep(preferred, keys) + Drop(keys, preferred)
  }

  lemma {:induction false} KeepMember(s: seq<string>, t: seq<string>, x: string)
    ensures x in Keep(s, t) <==> x in s && x in t
    decreases |s|
  {
    if s != [] {
      KeepMember(s[..|s| - 1], t, x);
      assert s == s[..|s| - 1] + [s[|s| - 1]];
    }
  }

  lemma {:induction false} DropMember(s: seq<string>, t: seq<string>, x: string)
    ensures x in Drop(s, t) <==> x in s && x !in t
    decreases |s|
  {
    if s != [] {
      DropMember(s[..|s| - 1], t, x);
      assert s == s[..|s| - 1] + [s[|s| - 1]];
    }
  }

  lemma {:induction false} KeepDistinct(s: seq<string>, t: seq<string>)
    requires Distinct(s)
    ensures Distinct(Keep(s, t))
    decreases |s|
  {
    if s != [] {
      var init, last := s[..|s| - 1], s[|s| - 1];
      KeepDistinct(init, t);
      KeepMember(init, t, last);
      assert last !in init;
    }
  }

  lemma {:induction false} DropDistinct(s: seq<string>, t: seq<string>)
    requires Distinct(s)
    ensures Distinct(Drop(s, t))
    decreases |s|
  {
    if s != [] {
      var init, last := s[..|s| - 1], s[|s| - 1];
      DropDistinct(init, t);
      DropMember(init, t, last);
      assert last !in init;
    }
  }

  lemma {:induction false} KeepAppend(a: seq<string>, b: seq<string>, t: seq<string>)
    ensures Keep(a + b, t) == Keep(a, t) + Keep(b, t)
    decreases |b|
  {
    if b != [] {
      assert (a + b)[..|a + b| - 1] == a + b[..|b| - 1];
      KeepAppend(a, b[..|b| - 1], t);
    } else {
      assert a + b == a;
    }
  }

  lemma {:induction false} DropAppend(a: seq<string>, b: seq<string>, t: seq<string>)
    ensures Drop(a + b, t) == Drop(a, t) + Drop(b, t)
    decreases |b|
  {
    if b != [] {
      assert (a + b)[..|a + b| - 1] == a + b[..|b| - 1];
      DropAppend(a, b[..|b| - 1], t);
    } else {
      assert a + b == a;
    }
  }

  /** Filtering by t depends only on which elements of s occur in t. */
  lemma {:induction false} FilterCongruent(s: seq<string>, t1: seq<string>, t2: seq<string>)
    requires forall x :: x in s ==> (x in t1 <==> x in t2)
    ensures Keep(s, t1) == Keep(s, t2) && Drop(s, t1) == Drop(s, t2)
    decreases |s|
  {
    if s != [] {
      FilterCongruent(s[..|s| - 1], t1, t2);
    }
  }

  lemma {:induction false} KeepAll(s: seq<string>, t: seq<string>)
    requires forall x :: x in s ==> x in t
    ensures Keep(s, t) == s && Drop(s, t) == []
    decreases |s|
  {
    if s != [] {
      var init, last := s[..|s| - 1], s[|s| - 1];
      assert s == init + [last];
      assert last in s;
      forall x | x in init ensures x in t {
        assert x in s;
      }
      KeepAll(init, t);
    }
  }

  lemma {:induction false} KeepNone(s: seq<string>, t: seq<string>)
    requires forall x :: x in s ==> x !in t
    ensures Keep(s, t) == [] && Drop(s, t) == s
    decreases |s|
  {
    if s != [] {
      var init, last := s[..|s| - 1], s[|s| - 1];
      assert s == init + [last];
      assert last in s;
      forall x | x in init ensures x !in t {
        assert x in s;
      }
      KeepNone(init, t);
    }
  }

  lemma {:induction false} DistinctCount(s: seq<string>, x: string)
    requires Distinct(s)
    ensures multiset(s)[x] == if x in s then 1 else 0
    decreases |s|
  {
    if s != [] {
      var init := s[..|s| - 1];
      assert s == init + [s[|s| - 1]];
      DistinctCount(init, x);
    }
  }

  /**
   * reorder_keys loses and adds no key: the new order is a permutation of the old one, it has no
   * repeated key, and a key occurs in it exactly when it occurs in the input.
   */
  lemma OrderKeysPermutation(keys: seq<string>, preferred: seq<string>)
    requires Distinct(keys) && Distinct(preferred)
    ensures var r := OrderKeys(keys, preferred);
            && Distinct(r)
            && (forall x :: x in r <==> x in keys)
            && multiset(r) == multiset(keys)
  {
    var front, back := Keep(preferred, keys), Drop(keys, preferred);
    var r := front + back;
    KeepDistinct(preferred, keys);
    DropDistinct(keys, preferred);
    forall x ensures (x in r <==> x in keys) && (x in front ==> x !in back) {
      KeepMember(preferred, keys, x);
      DropMember(keys, preferred, x);
    }
    forall i, j | 0 <= i < j < |r| ensures r[i] != r[j] {
      if i < |front| && j >= |front| {
        assert r[i] in front && r[j] == back[j - |front|];
      } else if i >= |front| {
        assert r[i] == back[i - |front|] && r[j] == back[j - |front|];
      }
    }
    forall x ensures multiset(r)[x] == multiset(keys)[x] {
      DistinctCount(r, x);
      DistinctCount(keys, x);
    }
  }

  /** No key outside the preferred list is placed before a key from it. */
  lemma PreferredKeysFirst(keys: seq<string>, preferred: seq<string>)
    ensures var r := OrderKeys(keys, preferred);
            forall i, j :: 0 <= i < j < |r| && r[j] in preferred ==> r[i] in preferred
  {
    var front, back := Keep(preferred, keys), Drop(keys, preferred);
    var r := front + back;
    forall i, j | 0 <= i < j < |r| && r[j] in preferred ensures r[i] in preferred {
      if i < |front| {
        KeepMember(preferred, keys, r[i]);
      } else {
        DropMember(keys, preferred, back[j - |front|]);
      }
    }
  }

  /**
   * Taking only the preferred keys of the new order gives the preferred list restricted to the keys
   * present; taking only the other keys gives them in their original order.
   */
  lemma OrderKeysProjections(keys: seq<string>, preferred: seq<string>)
    ensures Keep(OrderKeys(keys, preferred), preferred) == Keep(preferred, keys)
    ensures Drop(OrderKeys(keys, preferred), preferred) == Drop(keys, preferred)
  {
    var front, back := Keep(preferred, keys), Drop(keys, preferred);
    KeepAppend(front, back, preferred);
    DropAppend(front, back, preferred);
    forall x | x in front ensures x in preferred {
      KeepMember(preferred, keys, x);
    }
    forall x | x in back ensures x !in preferred {
      DropMember(keys, preferred, x);
    }
    KeepAll(front, preferred);
    KeepNone(back, preferred);
  }

  /** Reordering an already reordered key list changes nothing. */
  lemma OrderKeysIdempotent(keys: seq<string>, preferred: seq<string>)
    requires Distinct(keys) && Distinct(preferred)
    ensures OrderKeys(OrderKeys(keys, preferred), preferred) == OrderKeys(keys, preferred)
  {
    var r := OrderKeys(keys, preferred);
    OrderKeysPermutation(keys, preferred);
    OrderKeysProjections(keys, preferred);
    FilterCongruent(preferred, r, keys);
  }

  /** The record with reorder_keys' key order and the same value for every key. */
  function Reordered(d: Dict): (r: Dict)
    requires d.Valid()
    ensures r.Valid()
  {
    PreferredOrderDistinct();
    OrderKeysPermutation(d.keys, PreferredOrder);
    Dict(OrderKeys(d.keys, PreferredOrder), d.vals)
  }

  /** One round of the first loop: the next preferred key is copied at the end, if present. */
  lemma KeepStep(preferred: seq<string>, i: nat, keys: seq<string>)
    requires Distinct(preferred) && i < |preferred|
    ensures Keep(preferred[..i + 1], keys)
            == Keep(preferred[..i], keys) + (if preferred[i] in keys then [preferred[i]] else [])
    ensures preferred[i] !in Keep(preferred[..i], keys)
  {
    assert preferred[..i + 1][..i] == preferred[..i];
    KeepMember(preferred[..i], keys, preferred[i]);
  }

  /**
   * One round of the second loop: the next key is already copied exactly when it is a preferred
   * one, and otherwise it goes at the end.
   */
  lemma DropStep(keys: seq<string>, j: nat, preferred: seq<string>)
    requires Distinct(keys) && j < |keys|
    ensures Drop(keys[..j + 1], preferred)
            == Drop(keys[..j], preferred) + (if keys[j] !in preferred then [keys[j]] else [])
    ensures keys[j] in Keep(preferred, keys) + Drop(keys[..j], preferred) <==> keys[j] in preferred
  {
    assert keys[..j + 1][..j] == keys[..j];
    KeepMember(preferred, keys, keys[j]);
    DropMember(keys[..j], preferred, keys[j]);
  }

  /** reorder_keys: copy the preferred keys present, in that order, then every key not yet copied. */
  method ReorderKeys(data: Dict) returns (ordered: Dict)
    requires data.Valid()
    ensures ordered.Valid()
    ensures ordered.vals == data.vals
    ensures ordered.keys == OrderKeys(data.keys, PreferredOrder)
  {
    ordered := CopyPreferred(data);
    ordered := CopyRemaining(data, ordered);
  }

  /** The first loop of reorder_keys: for each preferred key in turn, copy it if data has it. */
  method CopyPreferred(data: Dict) returns (ordered: Dict)
    requires data.Valid()
    ensures ordered.Valid()
    ensures ordered.keys == Keep(PreferredOrder, data.keys)
    ensures forall k :: k in ordered.vals ==> k in data.vals && ordered.vals[k] == data.vals[k]
  {
    PreferredOrderDistinct();
    var preferred := PreferredOrder;
    ordered := Dict([], map[]);
    for i := 0 to |preferred|
      invariant ordered.Valid()
      invariant ordered.keys == Keep(preferred[..i], data.keys)
      invariant forall k :: k in ordered.vals ==> k in data.vals && ordered.vals[k] == data.vals[k]
    {
      var key := preferred[i];
      KeepStep(preferred, i, data.keys);
      if key in data.vals {
        ordered := ordered.Set(key, data.vals[key]);
      }
    }
    assert preferred[..|preferred|] == preferred;
  }

  /** The second loop of reorder_keys: copy, in data's order, each key not copied yet. */
  method CopyRemaining(data: Dict, copied: Dict) returns (ordered: Dict)
    requires data.Valid() && copied.Valid()
    requires copied.keys == Keep(PreferredOrder, data.keys)
    requires forall k :: k in copied.vals ==> k in data.vals && copied.vals[k] == data.vals[k]
    ensures ordered.Valid()
    ensures ordered.vals == data.vals
    ensures ordered.keys == OrderKeys(data.keys, PreferredOrder)
  {
    ordered := copied;
    for j := 0 to |data.keys|
      invariant Copying(data, ordered, PreferredOrder, j)
    {
      var key := data.keys[j];
      RemainingStep(data, ordered, PreferredOrder, j);
      if key !in ordered.vals {
        ordered := ordered.Set(key, data.vals[key]);
      }
    }
    assert data.keys[..|data.keys|] == data.keys;
    AllKeysCopied(data, ordered);
  }

  /** What the second loop keeps after j rounds. */
  ghost predicate Copying(data: Dict, ordered: Dict, preferred: seq<string>, j: nat)
  {
    && data.Valid() && ordered.Valid() && j <= |data.keys|
    && ordered.keys == Keep(preferred, data.keys) + Drop(data.keys[..j], preferred)
    && forall k :: k in ordered.vals ==> k in data.vals && ordered.vals[k] == data.vals[k]
  }

  /** One round of the second loop keeps what it keeps. */
  lemma RemainingStep(data: Dict, ordered: Dict, preferred: seq<string>, j: nat)
    requires Copying(data, ordered, preferred, j) && j < |data.keys|
    ensures var key := data.keys[j];
            Copying(data, if key !in ordered.vals then ordered.Set(key, data.vals[key]) else ordered, preferred, j + 1)
  {
    var key := data.keys[j];
    DropStep(data.keys, j, preferred);
    if key !in ordered.vals {
      AppendAssoc(Keep(preferred, data.keys), Drop(data.keys[..j], preferred), key);
    }
  }

  lemma AppendAssoc(a: seq<string>, b: seq<string>, k: string)
    ensures a + b + [k] == a + (b + [k])
  {
  }

  /** Once every key is in the new order, the copied values are all of data's values. */
  lemma AllKeysCopied(data: Dict, ordered: Dict)
    requires data.Valid() && ordered.Valid()
    requires ordered.keys == OrderKeys(data.keys, PreferredOrder)
    requires forall k :: k in ordered.vals ==> k in data.vals && ordered.vals[k] == data.vals[k]
    ensures ordered.vals == data.vals
  {
    forall k | k in data.vals ensures k in ordered.vals {
      KeepMember(PreferredOrder, data.keys, k);
      DropMember(data.keys, PreferredOrder, k);
    }
    assert ordered.vals.Keys == data.vals.Keys;
  }

  /** Reordering a reordered record gives it back unchanged. */
  lemma ReorderedIdempotent(d: Dict)
    requires d.Valid()
    ensures Reordered(Reordered(d)) == Reordered(d)
  {
    PreferredOrderDistinct();
    OrderKeysIdempotent(d.keys, PreferredOrder);
  }

  // ---------------------------------------------------------------------------
  // creature_type and element_subtype
  // ---------------------------------------------------------------------------

  const FolderToType: map<string, string> := map[
    "aberrations" := "aberration",
    "animals" := "beast",
    "beasts" := "beast",
    "constructs" := "construct",
    "demons" := "demon",
    "elementals" := "elemental",
    "humanoids" := "humanoid",
    "monstrosities" := "monstrosity",
    "oozes" := "ooze",
    "undead" := "undead"
  ]

  const SummonTypeMapping: map<string, string> := map[
    "summoned_skeleton" := "undead",
    "summoned_wolf" := "beast"
  ]

  const ElementalSubtypes: map<string, string> := map[
    "fire_elemental" := "fire",
    "ice_elemental" := "ice",
    "air_elemental" := "air",
    "earth_elemental" := "earth",
    "water_elemental" := "water"
  ]

  /** table.get(key, default), for a table keyed by strings: a value that is no string is never found. */
  function Lookup(table: map<string, string>, key: Value, default: string): string
  {
    if key.Str? && key.s in table then table[key.s] else default
  }

  /** data.get("id", "") */
  function EnemyId(d: Dict): Value
  {
    if "id" in d.vals then d.vals["id"] else Str("")
  }

  /** The fields the script wants a record to carry. */
  datatype Wanted = Wanted(creatureType: string, subtype: Option<string>)

  /** The creature_type and element_subtype the script wants for a record found in folder. */
  function WantedFields(d: Dict, folder: string): Wanted
  {
    var id := EnemyId(d);
    var creatureType :=
      if folder == "summons" then Lookup(SummonTypeMapping, id, "humanoid")
      else if folder in FolderToType then FolderToType[folder]
      else "humanoid";
    Wanted(creatureType,
      if creatureType == "elemental" && id.Str? && id.s in ElementalSubtypes then Some(ElementalSubtypes[id.s]) else None)
  }

  /**
   * The creature_type is one of the folder table's types (or the default "humanoid"); it is
   * "elemental" exactly for the elementals folder, since no summon maps to it; an element_subtype is
   * wanted exactly for an elemental whose id names one of the five elementals.
   */
  lemma WantedFieldsShape(d: Dict, folder: string)
    ensures var w := WantedFields(d, folder);
            && (w.creatureType == "humanoid" || w.creatureType in FolderToType.Values)
            && (w.creatureType == "elemental" <==> folder == "elementals")
            && (w.subtype.Some? <==> folder == "elementals" && EnemyId(d).Str? && EnemyId(d).s in ElementalSubtypes)
            && (w.subtype.Some? ==> w.subtype.value == ElementalSubtypes[EnemyId(d).s])
  {
    assert FolderToType["undead"] == "undead" && FolderToType["beasts"] == "beast";
  }

  /** A stored creature_type, or a wanted element_subtype, differs from what the script wants. */
  predicate Stale(d: Dict, folder: string)
  {
    var w := WantedFields(d, folder);
    d.Get("creature_type") != Some(Str(w.creatureType))
    || (w.subtype.Some? && d.Get("element_subtype") != Some(Str(w.subtype.value)))
  }

  /** The record with the wanted fields stored in it. */
  function Updated(d: Dict, folder: string): (u: Dict)
    requires d.Valid()
    ensures u.Valid()
  {
    var w := WantedFields(d, folder);
    var withType := d.Set("creature_type", Str(w.creatureType));
    if w.subtype.Some? then withType.Set("element_subtype", Str(w.subtype.value)) else withType
  }

  /** Storing the value a key already has changes nothing. */
  lemma SetUnchanged(d: Dict, k: string, v: Value)
    requires d.Valid() && d.Get(k) == Some(v)
    ensures d.Set(k, v) == d
  {
    assert d.vals[k := v] == d.vals;
  }

  /**
   * process_enemy_file after the JSON load: reports whether the record needed a change and, when it
   * did, returns the record to write back, with the wanted fields stored and the keys reordered.
   */
  method ProcessEnemy(data: Dict, folderName: string) returns (modified: bool, written: Option<Dict>)
    requires data.Valid()
    ensures modified == Stale(data, folderName)
    ensures written == if modified then Some(Reordered(Updated(data, folderName))) else None
  {
    var d := data;
    modified := false;
    var enemyId := if "id" in d.vals then d.vals["id"] else Str("");
    var creatureType: string;
    if folderName == "summons" {
      creatureType := Lookup(SummonTypeMapping, enemyId, "humanoid");
    } else {
      creatureType := if folderName in FolderToType then FolderToType[folderName] else "humanoid";
    }
    ghost var w := WantedFields(data, folderName);
    assert enemyId == EnemyId(data) && creatureType == w.creatureType;
    if d.Get("creature_type") != Some(Str(creatureType)) {
      d := d.Set("creature_type", Str(creatureType));
      modified := true;
    } else {
      SetUnchanged(d, "creature_type", Str(creatureType));
    }
    ghost var typed := d;
    assert typed == data.Set("creature_type", Str(w.creatureType));
    assert modified <==> data.Get("creature_type") != Some(Str(w.creatureType));
    if creatureType == "elemental" && enemyId.Str? && enemyId.s in ElementalSubtypes {
      var elementSubtype := ElementalSubtypes[enemyId.s];
      assert w.subtype == Some(elementSubtype);
      assert typed.Get("element_subtype") == data.Get("element_subtype");
      if d.Get("element_subtype") != Some(Str(elementSubtype)) {
        d := d.Set("element_subtype", Str(elementSubtype));
        modified := true;
      } else {
        SetUnchanged(d, "element_subtype", Str(elementSubtype));
      }
    } else {
      assert w.subtype == None;
    }
    assert d == Updated(data, folderName);
    if modified {
      var ordered := ReorderKeys(d);
      written := Some(ordered);
    } else {
      written := None;
    }
  }

  /** The wanted fields depend on the record only through its id. */
  lemma WantedFollowsId(d1: Dict, d2: Dict, folder: string)
    requires EnemyId(d1) == EnemyId(d2)
    ensures WantedFields(d1, folder) == WantedFields(d2, folder)
  {
  }

  /** Whether a record is stale depends only on its values, not on its key order. */
  lemma StaleFollowsVals(d1: Dict, d2: Dict, folder: string)
    requires d1.vals == d2.vals
    ensures Stale(d1, folder) == Stale(d2, folder)
  {
    assert EnemyId(d1) == EnemyId(d2);
    WantedFollowsId(d1, d2, folder);
  }

  /**
   * Storing the wanted fields touches no other key, keeps every existing key in its place,
   * stores creature_type, and stores element_subtype only when one is wanted.
   */
  lemma UpdatedChangesOnlyTypeFields(d: Dict, folder: string)
    requires d.Valid()
    ensures var u, w := Updated(d, folder), WantedFields(d, folder);
            && (forall k :: k != "creature_type" && k != "element_subtype" ==> u.Get(k) == d.Get(k))
            && d.keys <= u.keys
            && u.Get("creature_type") == Some(Str(w.creatureType))
            && u.Get("element_subtype") == if w.subtype.Some? then Some(Str(w.subtype.value)) else d.Get("element_subtype")
  {
    var w := WantedFields(d, folder);
    var t := d.Set("creature_type", Str(w.creatureType));
    assert d.keys <= t.keys;
    if w.subtype.Some? {
      var u := t.Set("element_subtype", Str(w.subtype.value));
      assert u == Updated(d, folder);
      assert t.keys <= u.keys;
    }
  }

  /** A record is reported as modified exactly when storing the wanted fields changes it. */
  lemma StaleIffChanged(d: Dict, folder: string)
    requires d.Valid()
    ensures Stale(d, folder) <==> Updated(d, folder) != d
  {
    var w := WantedFields(d, folder);
    UpdatedChangesOnlyTypeFields(d, folder);
    if !Stale(d, folder) {
      SetUnchanged(d, "creature_type", Str(w.creatureType));
      if w.subtype.Some? {
        SetUnchanged(d, "element_subtype", Str(w.subtype.value));
      }
    }
  }

  /**
   * Running the script again on its own output reports no change: neither the updated record nor
   * the reordered one written to disk is stale.
   */
  lemma ReprocessingIsClean(d: Dict, folder: string)
    requires d.Valid()
    ensures !Stale(Updated(d, folder), folder)
    ensures !Stale(Reordered(Updated(d, folder)), folder)
  {
    var u := Updated(d, folder);
    UpdatedChangesOnlyTypeFields(d, folder);
    assert u.Get("id") == d.Get("id");
    assert EnemyId(u) == EnemyId(d);
    WantedFollowsId(u, d, folder);
    StaleFollowsVals(Reordered(u), u, folder);
  }
}
