/** The inventory-snapshot backend service: it keeps the last equipped items,
    charms and skill sets it saw, compares each data-read event with them,
    and posts the inventory state whenever the equipped items or the charms
    changed. A change of the skills is detected but triggers nothing. */
module D2IDBackend {
  import opened Bits
  import opened BackendData

  /** The host in a debug build and in a release build. */
  const DebugHost: string := "localhost"
  const ReleaseHost: string := "d2id.multilurk.tv"

  /** The address the inventory state is posted to. */
  function InventoryURL(baseURI: string): (r: string)
    ensures |r| == |baseURI| + 41
    ensures r[..7] == "http://" && r[7..7 + |baseURI|] == baseURI
    ensures r[7 + |baseURI|..] == ":8080/snapshots/equipped/test/test"
  {
    "http://" + baseURI + ":8080/snapshots/equipped/test/test"
  }

  /** Different hosts never share an address. */
  lemma InventoryURLDeterminesHost(a: string, b: string)
    requires InventoryURL(a) == InventoryURL(b)
    ensures a == b
  {
    assert a == InventoryURL(a)[7..7 + |a|];
  }

  /** The last inventory seen. */
  class InventoryState {
    var equipmentStateHash: set<string>
    var equipmentState: map<int, StructuredItem>
    var charmStateHash: set<int>
    var charmState: map<int, StructuredItem>

    constructor()
      ensures equipmentStateHash == {} && equipmentState == map[]
      ensures charmStateHash == {} && charmState == map[]
    {
      equipmentStateHash := {};
      equipmentState := map[];
      charmStateHash := {};
      charmState := map[];
    }

    /** What serialising the object yields: its four fields. */
    function Snapshot(): InventorySnapshot
      reads this
    {
      InventorySnapshot(equipmentStateHash, equipmentState, charmStateHash, charmState)
    }
  }

  datatype InventorySnapshot = InventorySnapshot(
    equipmentStateHash: set<string>,
    equipmentState: map<int, StructuredItem>,
    charmStateHash: set<int>,
    charmState: map<int, StructuredItem>)

  /** The last skills seen. The ordered dictionary of levels is created empty
      and nothing ever writes it. */
  class SkillState {
    var state: map<string, int32>
    var skillNames: set<string>
    var skillLevels: set<int32>

    constructor()
      ensures state == map[] && skillNames == {} && skillLevels == {}
    {
      state := map[];
      skillNames := {};
      skillLevels := {};
    }
  }

  /** A request handed to the HTTP client: the address and the inventory
      state it carries. */
  datatype Post = Post(url: string, body: InventorySnapshot)

  /** The inventory comparison is the one of the equipped handlers: the same
      filters, the same texts and keys, the same verdict. */
  lemma SameVerdictAsEquippedHandler(s: InventorySnapshot, inventory: map<int, StructuredItem>, pending: bool)
    ensures var r := EquippedStep(EquippedState(s.equipmentStateHash, s.equipmentState, s.charmStateHash, s.charmState, pending), inventory);
      (r.sendRequired <==> s.equipmentStateHash != EquippedHash(EquippedItems(inventory)) ||
                           s.charmStateHash != CharmHash(CharmItems(inventory))) &&
      r.equipment == EquippedItems(inventory) && r.charms == CharmItems(inventory)
  {
  }

  class D2IDBackendService {
    const baseURI: string
    const currentInventoryState: InventoryState
    const currentSkillState: SkillState
    /** The requests handed to the HTTP client, in order. */
    var posts: seq<Post>

    /** `debug` stands for the build configuration that picks the host. */
    constructor(debug: bool)
      ensures baseURI == (if debug then DebugHost else ReleaseHost)
      ensures fresh(currentInventoryState) && fresh(currentSkillState)
      ensures currentInventoryState.Snapshot() == InventorySnapshot({}, map[], {}, map[])
      ensures currentSkillState.state == map[] && currentSkillState.skillNames == {}
      ensures currentSkillState.skillLevels == {}
      ensures posts == []
    {
      baseURI := if debug then DebugHost else ReleaseHost;
      currentInventoryState := new InventoryState();
      currentSkillState := new SkillState();
      posts := [];
    }

    /** One data-read event: the inventory check, the skill check, then the
        post of the inventory state when the equipped items or the charms
        changed. The two flags are returned so that callers can see them. */
    method OnDataRead(e: DataRead) returns (equippedItemsChanged: bool, skillLevelsChanged: bool)
      modifies currentInventoryState, currentSkillState, this`posts
      ensures currentInventoryState.equipmentState == EquippedItems(e.structuredInventory)
      ensures currentInventoryState.equipmentStateHash == EquippedHash(currentInventoryState.equipmentState)
      ensures currentInventoryState.charmState == CharmItems(e.structuredInventory)
      ensures currentInventoryState.charmStateHash == CharmHash(currentInventoryState.charmState)
      ensures equippedItemsChanged <==>
                old(currentInventoryState.equipmentStateHash) != currentInventoryState.equipmentStateHash ||
                old(currentInventoryState.charmStateHash) != currentInventoryState.charmStateHash
      ensures currentSkillState.skillNames == e.skillLevels.Keys
      ensures currentSkillState.skillLevels == LevelSet(e.skillLevels)
      ensures skillLevelsChanged <==>
                SkillSetsDiffer(old(currentSkillState.skillNames), old(currentSkillState.skillLevels), e.skillLevels)
      ensures unchanged(currentSkillState`state)
      ensures posts == old(posts) +
                (if equippedItemsChanged then [Post(InventoryURL(baseURI), currentInventoryState.Snapshot())] else [])
    {
      equippedItemsChanged := InventoryCheck(e.structuredInventory);
      skillLevelsChanged := SkillCheck(e.skillLevels);
      if equippedItemsChanged {
        ProcessInventoryChange();
      }
      if skillLevelsChanged {
        ProcessSkillChange();
      }
    }

    /** The inventory check: a changed set of equipped-item texts or of
        charm keys is a change; the new items, charms and sets replace the
        stored ones. */
    method InventoryCheck(inventory: map<int, StructuredItem>) returns (changed: bool)
      modifies currentInventoryState
      ensures currentInventoryState.equipmentState == EquippedItems(inventory)
      ensures currentInventoryState.equipmentStateHash == EquippedHash(currentInventoryState.equipmentState)
      ensures currentInventoryState.charmState == CharmItems(inventory)
      ensures currentInventoryState.charmStateHash == CharmHash(currentInventoryState.charmState)
      ensures changed <==>
                old(currentInventoryState.equipmentStateHash) != currentInventoryState.equipmentStateHash ||
                old(currentInventoryState.charmStateHash) != currentInventoryState.charmStateHash
    {
      changed := CompareEquipment(inventory, false);
      changed := CompareCharms(inventory, changed);
    }

    /** The equipped-items half: the new items and their texts replace the
        stored ones, and a changed set of texts sets the flag. */
    method CompareEquipment(inventory: map<int, StructuredItem>, changedBefore: bool) returns (changed: bool)
      modifies currentInventoryState`equipmentStateHash, currentInventoryState`equipmentState
      ensures currentInventoryState.equipmentState == EquippedItems(inventory)
      ensures currentInventoryState.equipmentStateHash == EquippedHash(currentInventoryState.equipmentState)
      ensures changed <==> changedBefore || old(currentInventoryState.equipmentStateHash) != currentInventoryState.equipmentStateHash
    {
      changed := changedBefore;
      var inv := currentInventoryState;
      var equippedItems := EquippedItems(inventory);
      var newEquippedHash := HashEquipped(equippedItems);
      SymmetricExceptNonEmpty(inv.equipmentStateHash, newEquippedHash);
      inv.equipmentStateHash := SymmetricExcept(inv.equipmentStateHash, newEquippedHash);
      if |inv.equipmentStateHash| > 0 {
        changed := true;
      }
      inv.equipmentStateHash := newEquippedHash;
      inv.equipmentState := equippedItems;
    }

    /** The charms half: the new charms and their keys replace the stored
        ones, and a changed set of keys sets the flag. */
    method CompareCharms(inventory: map<int, StructuredItem>, changedBefore: bool) returns (changed: bool)
      modifies currentInventoryState`charmStateHash, currentInventoryState`charmState
      ensures currentInventoryState.charmState == CharmItems(inventory)
      ensures currentInventoryState.charmStateHash == CharmHash(currentInventoryState.charmState)
      ensures changed <==> changedBefore || old(currentInventoryState.charmStateHash) != currentInventoryState.charmStateHash
    {
      changed := changedBefore;
      var inv := currentInventoryState;
      var equippedCharms := CharmItems(inventory);
      var newCharmsHash := CharmHash(equippedCharms);
      SymmetricExceptNonEmpty(inv.charmStateHash, newCharmsHash);
      inv.charmStateHash := SymmetricExcept(inv.charmStateHash, newCharmsHash);
      if |inv.charmStateHash| > 0 {
        changed := true;
      }
      inv.charmStateHash := newCharmsHash;
      inv.charmState := equippedCharms;
    }

    /** The skill check: changed skill names or a changed set of levels is a
        change; the new sets replace the stored ones, the stored levels
        themselves are left alone. */
    method SkillCheck(levels: map<string, int32>) returns (changed: bool)
      modifies currentSkillState
      ensures currentSkillState.skillNames == levels.Keys
      ensures currentSkillState.skillLevels == LevelSet(levels)
      ensures changed <==> SkillSetsDiffer(old(currentSkillState.skillNames), old(currentSkillState.skillLevels), levels)
      ensures unchanged(currentSkillState`state)
    {
      var sk := currentSkillState;
      var newSkillNames := CollectSkillNames(levels);
      var newSkillLevels := CollectSkillLevels(levels);
      assert newSkillNames == levels.Keys;
      SkillCountsSignalChange(sk.skillNames, sk.skillLevels, levels, newSkillNames, newSkillLevels);
      changed := false;
      sk.skillNames := SymmetricExcept(sk.skillNames, newSkillNames);
      sk.skillLevels := SymmetricExcept(sk.skillLevels, newSkillLevels);
      if |sk.skillNames| > 0 || |sk.skillLevels| > 0 {
        changed := true;
      }
      sk.skillNames := newSkillNames;
      sk.skillLevels := newSkillLevels;
    }

    /** Serialise the inventory state and post it. */
    method ProcessInventoryChange()
      modifies this`posts
      ensures posts == old(posts) + [Post(InventoryURL(baseURI), currentInventoryState.Snapshot())]
    {
      var json := currentInventoryState.Snapshot();
      posts := posts + [Post("http://" + baseURI + ":8080/snapshots/equipped/test/test", json)];
    }

    /** Reserved for skill changes: it changes nothing. */
    method ProcessSkillChange()
    {
    }
  }

  /** The same event handled twice in a row: the second time neither check
      reports a change, and only the first call can have posted. */
  method QuietSecondRead(s: D2IDBackendService, e: DataRead) returns (firstPosted: bool, again: (bool, bool))
    modifies s.currentInventoryState, s.currentSkillState, s`posts
    ensures again == (false, false)
    ensures s.posts == old(s.posts) +
              (if firstPosted then [Post(InventoryURL(s.baseURI), s.currentInventoryState.Snapshot())] else [])
  {
    var skillsChanged;
    firstPosted, skillsChanged := s.OnDataRead(e);
    var equippedAgain, skillsAgain := s.OnDataRead(e);
    again := (equippedAgain, skillsAgain);
  }
}
