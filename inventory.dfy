/** What the backend services receive with every data-read event, and the
    change-detection pieces the three services share: the equipped and charm
    filters over the structured inventory, the sets that stand for a snapshot,
    and the symmetric difference that compares two snapshots. */
module BackendData {
  import opened Bits
  import opened DecimalText
  import Wrappers

  /** A structured item of the inventory. `rendered` is the item's
      `asString()` text, computed outside this model. */
  datatype StructuredItem = StructuredItem(
    location: string,
    page: string,
    baseName: string,
    properties: seq<string>,
    rendered: string)

  /** The character as the backends see it in a data-read event. */
  datatype CharacterView = CharacterView(
    name: string,
    charClass: string,
    level: int32,
    gold: int32,
    goldStash: int32,
    strength: int32,
    dexterity: int32,
    vitality: int32,
    energy: int32,
    fireResist: int32,
    coldResist: int32,
    lightningResist: int32,
    poisonResist: int32,
    fasterHitRecovery: int32,
    fasterRunWalk: int32,
    fasterCastRate: int32,
    increasedAttackSpeed: int32)

  /** A data-read event: the character, the structured inventory keyed by
      item id, and the skill levels keyed by skill name. */
  datatype DataRead = DataRead(
    character: CharacterView,
    structuredInventory: map<int, StructuredItem>,
    skillLevels: map<string, int32>)

  /** What a packet carries. */
  datatype Payload =
    | Values(values: map<string, int32>)
    | Items(equipped: map<int, StructuredItem>, charms: map<int, StructuredItem>)
    | SkillLevels(levels: Wrappers.Option<map<string, int32>>)

  const CharmBases: set<string> := {"Small Charm", "Large Charm", "Grand Charm"}

  /** The equipped filter: an item on a body location of the equipped page. */
  predicate IsEquippedItem(item: StructuredItem) {
    item.location != "None" && item.page == "Equipped"
  }

  /** The charm filter: a charm base with at least one property, on the
      inventory page. */
  predicate IsCharm(item: StructuredItem) {
    item.page == "Inventory" && item.baseName in CharmBases && |item.properties| > 0
  }

  /** The equipped items of an inventory, under their keys. */
  function EquippedItems(inventory: map<int, StructuredItem>): map<int, StructuredItem>
  {
    map k | k in inventory && IsEquippedItem(inventory[k]) :: inventory[k]
  }

  /** The charms of an inventory, under their keys. */
  function CharmItems(inventory: map<int, StructuredItem>): map<int, StructuredItem>
  {
    map k | k in inventory && IsCharm(inventory[k]) :: inventory[k]
  }

  /** The text that stands for one equipped item: its location followed by its
      rendering. */
  function ItemHash(item: StructuredItem): string {
    item.location + item.rendered
  }

  /** The set of item texts that stands for a set of equipped items. */
  ghost function EquippedHash(items: map<int, StructuredItem>): set<string> {
    HashOfKeys(items, items.Keys)
  }

  /** The item texts of the items under `keys`. */
  ghost function HashOfKeys(items: map<int, StructuredItem>, keys: set<int>): set<string> {
    set k | k in keys && k in items :: ItemHash(items[k])
  }

  /** The set of charm keys that stands for a set of charms. */
  function CharmHash(charms: map<int, StructuredItem>): set<int>
  {
    charms.Keys
  }

  /** The `foreach` that fills the equipped hash set. */
  method HashEquipped(items: map<int, StructuredItem>) returns (hash: set<string>)
    ensures hash == EquippedHash(items)
  {
    hash := {};
    var rest := items.Keys;
    while rest != {}
      invariant rest <= items.Keys
      invariant hash == HashOfKeys(items, items.Keys - rest)
      decreases |rest|
    {
      HasElement(rest);
      var id :| id in rest;
      assert items.Keys - (rest - {id}) == (items.Keys - rest) + {id};
      hash := hash + {ItemHash(items[id])};
      rest := rest - {id};
    }
    assert items.Keys - rest == items.Keys;
  }

  /** A non-empty set of keys has an element to pick. */
  lemma HasElement(s: set<int>)
    requires s != {}
    ensures exists x :: x in s
  {
    if forall x :: x !in s {
      assert false;
    }
  }

  /** The `foreach` over the skill names. */
  method CollectSkillNames(levels: map<string, int32>) returns (names: set<string>)
    ensures forall n :: n in names <==> n in levels
  {
    names := {};
    var rest := levels.Keys;
    while rest != {}
      invariant rest <= levels.Keys
      invariant names == levels.Keys - rest
      decreases |rest|
    {
      var k :| k in rest;
      names := names + {k};
      rest := rest - {k};
    }
  }

  /** The set of skill levels, whatever skills they belong to. */
  ghost function LevelSet(levels: map<string, int32>): set<int32> {
    set k | k in levels :: levels[k]
  }

  /** The `foreach` over the skill levels. */
  method CollectSkillLevels(levels: map<string, int32>) returns (values: set<int32>)
    ensures values == LevelSet(levels)
  {
    values := {};
    var rest := levels.Keys;
    while rest != {}
      invariant rest <= levels.Keys
      invariant values == set k | k in levels.Keys - rest :: levels[k]
      decreases |rest|
    {
      var k :| k in rest;
      values := values + {levels[k]};
      rest := rest - {k};
    }
    assert levels.Keys - rest == levels.Keys;
  }

  /** The text that stands for one skill: its name followed by its level. */
  function SkillHash(name: string, level: int32): string {
    name + DecimalString(level)
  }

  ghost function SkillStrings(levels: map<string, int32>): set<string> {
    set k | k in levels :: SkillHash(k, levels[k])
  }

  /** The `foreach` over the skills that concatenates name and level. */
  method CollectSkillStrings(levels: map<string, int32>) returns (strings: set<string>)
    ensures strings == SkillStrings(levels)
  {
    strings := {};
    var rest := levels.Keys;
    while rest != {}
      invariant rest <= levels.Keys
      invariant strings == set k | k in levels.Keys - rest :: SkillHash(k, levels[k])
      decreases |rest|
    {
      var k :| k in rest;
      strings := strings + {SkillHash(k, levels[k])};
      rest := rest - {k};
    }
    assert levels.Keys - rest == levels.Keys;
  }

  /** `a.SymmetricExceptWith(b)`: what is in exactly one of the two sets. */
  function SymmetricExcept<T(!new)>(a: set<T>, b: set<T>): set<T>
  {
    (a - b) + (b - a)
  }

  /** The symmetric difference is non-empty exactly when the sets differ. */
  lemma SymmetricExceptNonEmpty<T(!new)>(a: set<T>, b: set<T>)
    ensures |SymmetricExcept(a, b)| > 0 <==> a != b
  {
    if a != b {
      var x :| (x in a && x !in b) || (x in b && x !in a);
      assert x in SymmetricExcept(a, b);
    } else {
      assert SymmetricExcept(a, b) == {};
    }
  }

  /** Unchecked `int` addition of the carried and the stashed gold. */
  function TotalGold(c: CharacterView): int32 {
    Wrap32(c.gold + c.goldStash)
  }

  /** The gold delta, unchecked `int` subtraction. */
  function GoldDelta(newGold: int32, oldGold: int32): (r: int32)
    ensures Wrap32(oldGold + r) == newGold
    ensures r == 0 <==> newGold == oldGold
  {
    DeltaRestores(newGold, oldGold);
    Wrap32(newGold - oldGold)
  }

  /** Adding the wrapped difference back to the old total yields the new
      total, wrap-around included. */
  lemma DeltaRestores(newGold: int32, oldGold: int32)
    ensures Wrap32(oldGold + Wrap32(newGold - oldGold)) == newGold
    ensures Wrap32(newGold - oldGold) == 0 <==> newGold == oldGold
  {
    var d := Wrap32(newGold - oldGold);
    var k := (d - (newGold - oldGold)) / TwoTo32;
    assert d == newGold - oldGold + k * TwoTo32;
    Wrap32Shift(newGold, k);
    assert oldGold + d == newGold + k * TwoTo32;
    if d == 0 {
      assert newGold - oldGold == -k * TwoTo32;
      assert -TwoTo32 < newGold - oldGold < TwoTo32;
      assert k == 0;
    }
  }

  /** Wrapping ignores whole multiples of 2^32. */
  lemma Wrap32Shift(x: int32, k: int)
    ensures Wrap32(x + k * TwoTo32) == x
  {
    var y := x + TwoTo31;
    assert 0 <= y < TwoTo32;
    ModUnique(y + k * TwoTo32, TwoTo32, k, y);
  }

  /* ---------- The gold handler, shared by two services ---------- */

  /** The gold handler's dictionary: the current total and the last change. */
  function GoldValues(current: int32, delta: int32): (m: map<string, int32>)
    ensures m.Keys == {"currentGold", "delta"}
    ensures m["currentGold"] == current && m["delta"] == delta
  {
    map["currentGold" := current, "delta" := delta]
  }

  /** The gold handler's fields. The character name is absent until the
      first event. */
  datatype GoldState = GoldState(
    values: map<string, int32>,
    sendRequired: bool,
    initialized: bool,
    characterName: Wrappers.Option<string>)

  ghost predicate GoldValid(s: GoldState) {
    s.values.Keys == {"currentGold", "delta"} && (s.initialized ==> s.characterName.Some?)
  }

  const InitialGold: GoldState := GoldState(GoldValues(0, 0), false, false, Wrappers.None)

  /** The gold handler's reaction to one event (see `GoldStepSpec`). */
  function GoldStep(s: GoldState, c: CharacterView): GoldState
    requires GoldValid(s)
  {
    if !s.initialized || s.characterName != Wrappers.Some(c.name) then
      GoldState(s.values["currentGold" := TotalGold(c)]["delta" := 0], false, true, Wrappers.Some(c.name))
    else
      var newGold := TotalGold(c);
      if s.values["currentGold"] != newGold then
        var values := s.values["delta" := GoldDelta(newGold, s.values["currentGold"])]["currentGold" := newGold];
        GoldState(values, true, s.initialized, s.characterName)
      else
        s.(sendRequired := false)
  }

  /** A first event or a different character re-initialises: the total is
      taken over with a zero delta and nothing is sent. For the same
      character a changed total is sent with its delta, and an unchanged
      total changes nothing. Either way the stored total is the new one. */
  lemma GoldStepSpec(s: GoldState, c: CharacterView)
    requires GoldValid(s)
    ensures var r := GoldStep(s, c);
      GoldValid(r) &&
      r.values["currentGold"] == TotalGold(c) &&
      (!s.initialized || s.characterName != Wrappers.Some(c.name) ==>
         r == GoldState(GoldValues(TotalGold(c), 0), false, true, Wrappers.Some(c.name))) &&
      (s.initialized && s.characterName == Wrappers.Some(c.name) ==>
         r.initialized && r.characterName == s.characterName &&
         (r.sendRequired <==> s.values["currentGold"] != TotalGold(c)) &&
         (r.sendRequired ==> r.values == GoldValues(TotalGold(c), GoldDelta(TotalGold(c), s.values["currentGold"]))) &&
         (!r.sendRequired ==> r.values == s.values))
  {
    var r := GoldStep(s, c);
    if !s.initialized || s.characterName != Wrappers.Some(c.name) {
      assert r.values == GoldValues(TotalGold(c), 0);
    } else if s.values["currentGold"] != TotalGold(c) {
      assert r.values == GoldValues(TotalGold(c), GoldDelta(TotalGold(c), s.values["currentGold"]));
    }
  }

  /** When a send is required, the delta it carries leads from the previous
      total to the new one. */
  lemma GoldDeltaLeadsToTotal(s: GoldState, c: CharacterView)
    requires GoldValid(s)
    ensures var r := GoldStep(s, c);
            r.sendRequired ==> Wrap32(s.values["currentGold"] as int + r.values["delta"] as int) == r.values["currentGold"]
  {
    GoldStepSpec(s, c);
  }

  /** The same character seen twice in a row: the second event sends
      nothing and changes nothing but the flag. */
  lemma GoldStepQuiet(s: GoldState, c: CharacterView)
    requires GoldValid(s)
    ensures GoldValid(GoldStep(s, c))
    ensures var r := GoldStep(s, c);
            GoldStep(r, c) == r.(sendRequired := false)
  {
    GoldStepSpec(s, c);
  }

  /* ---------- The equipped handler, shared by two services ---------- */

  /** The equipped handler's fields. */
  datatype EquippedState = EquippedState(
    hashedEquipment: set<string>,
    equipment: map<int, StructuredItem>,
    hashedCharms: set<int>,
    charms: map<int, StructuredItem>,
    sendRequired: bool)

  const InitialEquipped: EquippedState := EquippedState({}, map[], {}, map[], false)

  /** The stored hashes are those of the stored items. */
  ghost predicate EquippedConsistent(s: EquippedState) {
    s.hashedEquipment == EquippedHash(s.equipment) && s.hashedCharms == CharmHash(s.charms)
  }

  /** The equipped handler's reaction to one event: the equipped items and
      the charms replace the stored ones, and a send is required exactly when
      the equipped texts or the charm keys differ from the stored ones. */
  ghost function EquippedStep(s: EquippedState, inventory: map<int, StructuredItem>): EquippedState
  {
    var equipment := EquippedItems(inventory);
    var charms := CharmItems(inventory);
    EquippedState(EquippedHash(equipment), equipment, CharmHash(charms), charms,
                  s.hashedEquipment != EquippedHash(equipment) || s.hashedCharms != CharmHash(charms))
  }

  /** For consistent stored hashes, a send is required exactly when the
      equipped items' texts or the set of charm keys changed. */
  lemma EquippedStepSpec(s: EquippedState, inventory: map<int, StructuredItem>)
    requires EquippedConsistent(s)
    ensures var r := EquippedStep(s, inventory);
      EquippedConsistent(r) &&
      (r.sendRequired <==> EquippedHash(s.equipment) != EquippedHash(r.equipment) ||
                           s.charms.Keys != r.charms.Keys)
  {
  }

  /** The same inventory seen twice in a row: the second event sends
      nothing. */
  lemma EquippedStepQuiet(s: EquippedState, inventory: map<int, StructuredItem>)
    ensures var r := EquippedStep(s, inventory);
            EquippedStep(r, inventory) == r.(sendRequired := false)
  {
  }

  /** A new charm in the inventory is always noticed. */
  lemma NewCharmNoticed(s: EquippedState, inventory: map<int, StructuredItem>, id: int)
    requires EquippedConsistent(s)
    requires id in inventory && IsCharm(inventory[id]) && id !in s.charms
    ensures EquippedStep(s, inventory).sendRequired
  {
    EquippedStepSpec(s, inventory);
    assert id in CharmHash(CharmItems(inventory));
  }

  /* ---------- The two-set skill comparison, shared by two services ---------- */

  /** Whether the skill names or the set of skill levels, compared apart
      from the skills they belong to, differ from the stored sets. */
  ghost predicate SkillSetsDiffer(names: set<string>, levelSet: set<int32>, levels: map<string, int32>) {
    names != levels.Keys || levelSet != LevelSet(levels)
  }

  /** The two counts the services test are non-zero exactly when the sets
      differ. */
  lemma SkillCountsSignalChange(names: set<string>, levelSet: set<int32>, levels: map<string, int32>,
                                newNames: set<string>, newLevels: set<int32>)
    requires newNames == levels.Keys && newLevels == LevelSet(levels)
    ensures |SymmetricExcept(names, newNames)| > 0 || |SymmetricExcept(levelSet, newLevels)| > 0
            <==> SkillSetsDiffer(names, levelSet, levels)
  {
    SymmetricExceptNonEmpty(names, newNames);
    SymmetricExceptNonEmpty(levelSet, newLevels);
  }

  /** A skill learned or forgotten is always noticed. */
  lemma SkillNameChangeNoticed(names: set<string>, levelSet: set<int32>, levels: map<string, int32>, name: string)
    requires (name in levels) != (name in names)
    ensures SkillSetsDiffer(names, levelSet, levels)
  {
    assert (name in levels.Keys) != (name in names);
  }

  /** The level set of three skills whose levels are 1 and 2. */
  lemma LevelsOfThree(levels: map<string, int32>)
    requires levels.Keys == {"Fire Bolt", "Warmth", "Inferno"}
    requires forall k :: k in levels ==> levels[k] == 1 || levels[k] == 2
    requires exists k :: k in levels && levels[k] == 1
    requires exists k :: k in levels && levels[k] == 2
    ensures LevelSet(levels) == {1, 2}
  {
  }

  /** A skill point goes unnoticed when the new level is one another skill
      already has and the old level is still held by a third skill: Fire
      Bolt rising from 1 to 2 beside Warmth at 2 and Inferno at 1 leaves the
      names and the set of levels as they were. */
  lemma SkillPointUnnoticed()
    ensures var before: map<string, int32> := map["Fire Bolt" := 1, "Warmth" := 2, "Inferno" := 1];
            var after: map<string, int32> := map["Fire Bolt" := 2, "Warmth" := 2, "Inferno" := 1];
            !SkillSetsDiffer(before.Keys, LevelSet(before), after)
  {
    var before: map<string, int32> := map["Fire Bolt" := 1, "Warmth" := 2, "Inferno" := 1];
    var after: map<string, int32> := map["Fire Bolt" := 2, "Warmth" := 2, "Inferno" := 1];
    LevelsOfThree(before);
    LevelsOfThree(after);
  }

  /** Two skills swapping their levels goes unnoticed as well. */
  lemma SwappedLevelsUnnoticed()
    ensures var before: map<string, int32> := map["Fire Bolt" := 1, "Warmth" := 2];
            var after: map<string, int32> := map["Fire Bolt" := 2, "Warmth" := 1];
            !SkillSetsDiffer(before.Keys, LevelSet(before), after)
  {
    var before: map<string, int32> := map["Fire Bolt" := 1, "Warmth" := 2];
    var after: map<string, int32> := map["Fire Bolt" := 2, "Warmth" := 1];
    assert LevelSet(before) == {1, 2} by {
      assert before["Fire Bolt"] == 1 && before["Warmth"] == 2;
    }
    assert LevelSet(after) == {1, 2} by {
      assert after["Fire Bolt"] == 2 && after["Warmth"] == 1;
    }
  }
}
