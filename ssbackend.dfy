/** The statistics backend service: four endpoint handlers that compare each
    data-read event with what they last saw, and a dispatcher that queues a
    packet for every handler that needs to send and then sends the queue in
    order. */
module SSBackend {
  import opened Wrappers
  import opened Bits
  import opened DecimalText
  import opened BackendData

  const Scheme: string := "http"
  const Authority: string := "//localhost:8080"
  /** Where every endpoint of this service lives. */
  const Origin: string := "http://localhost:8080"
  const Channel: string := "test_channel"

  const AttributesPath: string := "/api/v1/snapshots/attributes"
  const GoldPath: string := "/api/v1/snapshots/gold"
  const ItemsPath: string := "/api/v1/snapshots/items"
  const SkillsPath: string := "/api/v1/snapshots/skills"

  /** An endpoint: fixed scheme and authority, and a path that is set or
      appended to. The path starts out unset, which reads as empty. */
  class SSEndpoint {
    var path: string

    constructor()
      ensures path == ""
    {
      path := "";
    }

    method SetPath(p: string)
      modifies this
      ensures path == p
    {
      path := p;
    }

    method AppendPath(p: string)
      modifies this
      ensures path == old(path) + p
      ensures GetURI() == old(GetURI()) + p
    {
      path := path + p;
    }

    /** The address: scheme, colon, authority, then the path. */
    function GetURI(): (r: string)
      reads this
      ensures r == Origin + path
    {
      Scheme + ":" + Authority + path
    }
  }

  /** Two endpoints with the same address have the same path. */
  lemma GetURIDeterminesPath(a: SSEndpoint, b: SSEndpoint)
    requires a.GetURI() == b.GetURI()
    ensures a.path == b.path
  {
    assert a.path == a.GetURI()[|Origin|..];
  }

  /** A packet: channel, the character's name, class and level, and the
      handler's payload. */
  datatype SSPacket = SSPacket(
    channel: string,
    characterName: string,
    characterClass: string,
    characterLevel: int32,
    payload: Payload)

  function NewSSPacket(channel: string, c: CharacterView, payload: Payload): SSPacket {
    SSPacket(channel, c.name, c.charClass, c.level, payload)
  }

  /* ---------- Attributes ---------- */

  const AttributeKeys: seq<string> := [
    "strength", "dexterity", "vitality", "energy",
    "fireResist", "coldResist", "lightningResist", "poisonResist",
    "fasterHitRecovery", "fasterRunWalk", "fasterCastRate", "increasedAttackSpeed"]

  /** The tag glued to each attribute's value, in the order of the keys. */
  const AttributeTags: seq<string> := [
    "STR", "DEX", "VIT", "ENE",
    "FR", "CR", "LR", "PR",
    "FHR", "FRW", "FCR", "IAS"]

  ghost predicate HasAttributeKeys(m: map<string, int32>) {
    m.Keys == set i | 0 <= i < |AttributeKeys| :: AttributeKeys[i]
  }

  /** The tracked attributes of a character, by key. */
  function AttributeValues(c: CharacterView): (m: map<string, int32>)
    ensures HasAttributeKeys(m)
  {
    var m := map[
      "strength" := c.strength, "dexterity" := c.dexterity,
      "vitality" := c.vitality, "energy" := c.energy,
      "fireResist" := c.fireResist, "coldResist" := c.coldResist,
      "lightningResist" := c.lightningResist, "poisonResist" := c.poisonResist,
      "fasterHitRecovery" := c.fasterHitRecovery, "fasterRunWalk" := c.fasterRunWalk,
      "fasterCastRate" := c.fasterCastRate, "increasedAttackSpeed" := c.increasedAttackSpeed];
    AttributeKeySet(m);
    m
  }

  lemma AttributeKeySet(m: map<string, int32>)
    requires m.Keys == {"strength", "dexterity", "vitality", "energy",
                        "fireResist", "coldResist", "lightningResist", "poisonResist",
                        "fasterHitRecovery", "fasterRunWalk", "fasterCastRate", "increasedAttackSpeed"}
    ensures HasAttributeKeys(m)
  {
    var keys := set i | 0 <= i < |AttributeKeys| :: AttributeKeys[i];
    assert forall k :: k in m.Keys ==> k in keys by {
      assert AttributeKeys[0] == "strength" && AttributeKeys[1] == "dexterity";
      assert AttributeKeys[2] == "vitality" && AttributeKeys[3] == "energy";
      assert AttributeKeys[4] == "fireResist" && AttributeKeys[5] == "coldResist";
      assert AttributeKeys[6] == "lightningResist" && AttributeKeys[7] == "poisonResist";
      assert AttributeKeys[8] == "fasterHitRecovery" && AttributeKeys[9] == "fasterRunWalk";
      assert AttributeKeys[10] == "fasterCastRate" && AttributeKeys[11] == "increasedAttackSpeed";
    }
  }

  /** The twelve `value + tag` texts that stand for a set of attribute
      values. */
  function AttributeStrings(m: map<string, int32>): set<string>
    requires HasAttributeKeys(m)
  {
    set i | 0 <= i < |AttributeKeys| :: Tagged(m[AttributeKeys[i]], AttributeTags[i])
  }

  /** Every tag is upper-case letters only. */
  lemma TagsAreTags(i: nat)
    requires i < |AttributeTags|
    ensures IsTag(AttributeTags[i])
  {
  }

  /** No two attributes share a tag. */
  lemma TagsDistinct(i: nat, j: nat)
    requires i < |AttributeTags| && j < |AttributeTags| && AttributeTags[i] == AttributeTags[j]
    ensures i == j
  {
  }

  /** The twelve texts determine the twelve values: two sets of attribute
      values have the same texts exactly when they are equal. */
  lemma AttributeStringsInjective(a: map<string, int32>, b: map<string, int32>)
    requires HasAttributeKeys(a) && HasAttributeKeys(b)
    ensures AttributeStrings(a) == AttributeStrings(b) <==> a == b
  {
    if AttributeStrings(a) == AttributeStrings(b) {
      forall k | k in a
        ensures a[k] == b[k]
      {
        var i :| 0 <= i < |AttributeKeys| && AttributeKeys[i] == k;
        var x := Tagged(a[k], AttributeTags[i]);
        assert x in AttributeStrings(a);
        assert x in AttributeStrings(b);
        var j :| 0 <= j < |AttributeKeys| && Tagged(b[AttributeKeys[j]], AttributeTags[j]) == x;
        TagsAreTags(i);
        TagsAreTags(j);
        TaggedInjective(a[k], AttributeTags[i], b[AttributeKeys[j]], AttributeTags[j]);
        TagsDistinct(i, j);
      }
    }
  }

  /** The attributes handler's fields. */
  datatype AttributesState = AttributesState(values: map<string, int32>, sendRequired: bool)

  /** All twelve attributes start at zero. */
  const InitialAttributes: AttributesState := AttributesState(map[
      "strength" := 0, "dexterity" := 0, "vitality" := 0, "energy" := 0,
      "fireResist" := 0, "coldResist" := 0, "lightningResist" := 0, "poisonResist" := 0,
      "fasterHitRecovery" := 0, "fasterRunWalk" := 0, "fasterCastRate" := 0, "increasedAttackSpeed" := 0],
    false)

  lemma InitialAttributesValid()
    ensures HasAttributeKeys(InitialAttributes.values)
    ensures forall k :: k in InitialAttributes.values ==> InitialAttributes.values[k] == 0
  {
    AttributeKeySet(InitialAttributes.values);
  }

  /** The attributes handler's reaction to one event: when some tracked
      attribute differs from the stored one, the character's values replace
      the stored ones and a send is required; otherwise nothing is sent. */
  function AttributesStep(s: AttributesState, c: CharacterView): AttributesState
  {
    if s.values != AttributeValues(c) then AttributesState(AttributeValues(c), true)
    else AttributesState(s.values, false)
  }

  /** Afterwards the stored values are the character's, and a send was
      required exactly when one of the twelve attributes changed. */
  lemma AttributesStepSpec(s: AttributesState, c: CharacterView)
    requires HasAttributeKeys(s.values)
    ensures var r := AttributesStep(s, c);
      r.values == AttributeValues(c) &&
      (r.sendRequired <==> exists i :: 0 <= i < |AttributeKeys| &&
                             s.values[AttributeKeys[i]] != AttributeValues(c)[AttributeKeys[i]])
  {
    var m := AttributeValues(c);
    if s.values != m {
      var k :| k in s.values && s.values[k] != m[k];
      var i :| 0 <= i < |AttributeKeys| && AttributeKeys[i] == k;
      assert s.values[AttributeKeys[i]] != m[AttributeKeys[i]];
    }
  }

  /** The same attributes seen twice in a row: the second event sends
      nothing. */
  lemma AttributesStepQuiet(s: AttributesState, c: CharacterView)
    ensures !AttributesStep(AttributesStep(s, c), c).sendRequired
  {
  }

  /* ---------- Skills ---------- */

  /** The skills handler's fields. The skill levels are unset until the
      first event. */
  datatype SkillsState = SkillsState(
    hashedSkills: set<string>,
    skillState: Option<map<string, int32>>,
    sendRequired: bool)

  const InitialSkills: SkillsState := SkillsState({}, None, false)

  /** The skills handler's reaction to one event: the `name + level` texts
      and the levels replace the stored ones, and a send is required exactly
      when the texts differ from the stored ones. */
  ghost function SkillsStep(s: SkillsState, levels: map<string, int32>): SkillsState
  {
    SkillsState(SkillStrings(levels), Some(levels), s.hashedSkills != SkillStrings(levels))
  }

  /** "A1" at level 1 and "A" at level 11 have the same text. */
  lemma CollidingTexts()
    ensures SkillHash("A1", 1) == "A11" && SkillHash("A", 11) == "A11"
  {
    assert NatString(1) == "1";
    assert NatString(11) == NatString(1) + "1";
  }

  lemma CollidingSkillStrings()
    ensures SkillStrings(map["A1" := 1]) == {"A11"}
    ensures SkillStrings(map["A1" := 1, "A" := 11]) == {"A11"}
  {
    var before: map<string, int32> := map["A1" := 1];
    var after: map<string, int32> := map["A1" := 1, "A" := 11];
    CollidingTexts();
    assert "A11" == SkillHash("A1", before["A1"]);
    assert "A11" == SkillHash("A1", after["A1"]);
    forall x | x in SkillStrings(after)
      ensures x == "A11"
    {
      var k :| k in after && x == SkillHash(k, after[k]);
      assert k == "A1" || k == "A";
    }
  }

  /** A skill whose name ends in digits can hide another skill: adding
      "A" at level 11 next to "A1" at level 1 leaves the texts unchanged, so
      nothing is sent. */
  lemma SkillTextsCollide()
    ensures var s := SkillsStep(InitialSkills, map["A1" := 1]);
            !SkillsStep(s, map["A1" := 1, "A" := 11]).sendRequired
  {
    CollidingSkillStrings();
  }

  /* ---------- Handlers ---------- */

  class AttributesEndpointHandler {
    const uri: SSEndpoint
    var values: map<string, int32>
    var sendRequired: bool

    function State(): AttributesState
      reads this
    {
      AttributesState(values, sendRequired)
    }

    ghost predicate Valid()
      reads this
    {
      HasAttributeKeys(values)
    }

    constructor()
      ensures Valid() && State() == InitialAttributes
      ensures fresh(uri) && uri.path == ""
    {
      uri := new SSEndpoint();
      values := InitialAttributes.values;
      sendRequired := false;
      new;
      InitialAttributesValid();
    }

    function GetURI(): string
      reads this, uri
    {
      uri.GetURI()
    }

    method UpdateURI(channelName: string, characterName: string)
      modifies uri
      ensures uri.path == AttributesPath
    {
      uri.SetPath(AttributesPath);
    }

    method ProcessGameState(state: DataRead)
      requires Valid()
      modifies this
      ensures Valid()
      ensures State() == AttributesStep(old(State()), state.character)
    {
      sendRequired := false;
      var newValues := AttributeStrings(AttributeValues(state.character));
      var oldValues := AttributeStrings(values);
      SymmetricExceptNonEmpty(oldValues, newValues);
      AttributeStringsInjective(values, AttributeValues(state.character));
      oldValues := SymmetricExcept(oldValues, newValues);
      if |oldValues| > 0 {
        values := AttributeValues(state.character);
        sendRequired := true;
      }
    }

    function IsSendRequired(): bool
      reads this
    {
      sendRequired
    }

    function GetPacket(channel: string, c: CharacterView): SSPacket
      reads this
    {
      NewSSPacket(channel, c, Values(values))
    }
  }

  class GoldEndpointHandler {
    const uri: SSEndpoint
    var values: map<string, int32>
    var sendRequired: bool
    var initialized: bool
    var characterName: Option<string>

    function State(): GoldState
      reads this
    {
      GoldState(values, sendRequired, initialized, characterName)
    }

    ghost predicate Valid()
      reads this
    {
      GoldValid(State())
    }

    constructor()
      ensures Valid() && State() == InitialGold
      ensures fresh(uri) && uri.path == ""
    {
      uri := new SSEndpoint();
      values := GoldValues(0, 0);
      sendRequired := false;
      initialized := false;
      characterName := None;
    }

    function GetURI(): string
      reads this, uri
    {
      uri.GetURI()
    }

    method UpdateURI(channelName: string, characterName: string)
      modifies uri
      ensures uri.path == GoldPath
    {
      uri.SetPath(GoldPath);
    }

    /** Take over the character's total with a zero delta. */
    method ProcessInitialState(state: DataRead)
      requires Valid()
      modifies this
      ensures Valid()
      ensures values == GoldValues(TotalGold(state.character), 0)
      ensures initialized && characterName == Some(state.character.name)
      ensures sendRequired == old(sendRequired)
    {
      characterName := Some(state.character.name);
      values := values["currentGold" := TotalGold(state.character)];
      values := values["delta" := 0];
      initialized := true;
    }

    method ProcessGameState(state: DataRead)
      requires Valid()
      modifies this
      ensures Valid()
      ensures State() == GoldStep(old(State()), state.character)
    {
      sendRequired := false;
      if !initialized || characterName != Some(state.character.name) {
        ProcessInitialState(state);
        return;
      }
      var newGold := TotalGold(state.character);
      if values["currentGold"] != newGold {
        values := values["delta" := GoldDelta(newGold, values["currentGold"])];
        values := values["currentGold" := newGold];
        sendRequired := true;
      }
    }

    function IsSendRequired(): bool
      reads this
    {
      sendRequired
    }

    function GetPacket(channel: string, c: CharacterView): SSPacket
      reads this
    {
      NewSSPacket(channel, c, Values(values))
    }
  }

  class EquippedEndpointHandler {
    const uri: SSEndpoint
    var hashedEquipmentState: set<string>
    var equipmentState: map<int, StructuredItem>
    var hashedCharmState: set<int>
    var charmState: map<int, StructuredItem>
    var sendRequired: bool

    function State(): EquippedState
      reads this
    {
      EquippedState(hashedEquipmentState, equipmentState, hashedCharmState, charmState, sendRequired)
    }

    ghost predicate Valid()
      reads this
    {
      EquippedConsistent(State())
    }

    constructor()
      ensures Valid() && State() == InitialEquipped
      ensures fresh(uri) && uri.path == ""
    {
      uri := new SSEndpoint();
      hashedEquipmentState := {};
      equipmentState := map[];
      hashedCharmState := {};
      charmState := map[];
      sendRequired := false;
    }

    function GetURI(): string
      reads this, uri
    {
      uri.GetURI()
    }

    method UpdateURI(channelName: string, characterName: string)
      modifies uri
      ensures uri.path == ItemsPath
    {
      uri.SetPath(ItemsPath);
    }

    method ProcessGameState(state: DataRead)
      modifies this
      ensures Valid()
      ensures State() == EquippedStep(old(State()), state.structuredInventory)
    {
      sendRequired := false;
      CompareEquipment(state.structuredInventory);
      CompareCharms(state.structuredInventory);
    }

    /** The equipped-items half: a changed set of item texts requires a
        send; the new items and texts replace the stored ones. */
    method CompareEquipment(inventory: map<int, StructuredItem>)
      modifies this`hashedEquipmentState, this`equipmentState, this`sendRequired
      ensures equipmentState == EquippedItems(inventory)
      ensures hashedEquipmentState == EquippedHash(equipmentState)
      ensures sendRequired == (old(sendRequired) || old(hashedEquipmentState) != hashedEquipmentState)
    {
      var newEquippedItems := EquippedItems(inventory);
      var newHashedEquipped := HashEquipped(newEquippedItems);
      SymmetricExceptNonEmpty(hashedEquipmentState, newHashedEquipped);
      hashedEquipmentState := SymmetricExcept(hashedEquipmentState, newHashedEquipped);
      if |hashedEquipmentState| > 0 {
        sendRequired := true;
      }
      hashedEquipmentState := newHashedEquipped;
      equipmentState := newEquippedItems;
    }

    /** The charms half: a changed set of charm keys requires a send; the
        new charms and keys replace the stored ones. */
    method CompareCharms(inventory: map<int, StructuredItem>)
      modifies this`hashedCharmState, this`charmState, this`sendRequired
      ensures charmState == CharmItems(inventory)
      ensures hashedCharmState == CharmHash(charmState)
      ensures sendRequired == (old(sendRequired) || old(hashedCharmState) != hashedCharmState)
    {
      var newEquippedCharms := CharmItems(inventory);
      var newCharmsHash := CharmHash(newEquippedCharms);
      SymmetricExceptNonEmpty(hashedCharmState, newCharmsHash);
      hashedCharmState := SymmetricExcept(hashedCharmState, newCharmsHash);
      if |hashedCharmState| > 0 {
        sendRequired := true;
      }
      hashedCharmState := newCharmsHash;
      charmState := newEquippedCharms;
    }

    function IsSendRequired(): bool
      reads this
    {
      sendRequired
    }

    /** The payload: the equipped items, then the charms. */
    function GetPacket(channel: string, c: CharacterView): SSPacket
      reads this
    {
      NewSSPacket(channel, c, Items(equipmentState, charmState))
    }
  }

  class SkillsEndpointHandler {
    const uri: SSEndpoint
    var hashedSkills: set<string>
    var skillState: Option<map<string, int32>>
    var sendRequired: bool

    function State(): SkillsState
      reads this
    {
      SkillsState(hashedSkills, skillState, sendRequired)
    }

    constructor()
      ensures State() == InitialSkills
      ensures fresh(uri) && uri.path == ""
    {
      uri := new SSEndpoint();
      hashedSkills := {};
      skillState := None;
      sendRequired := false;
    }

    function GetURI(): string
      reads this, uri
    {
      uri.GetURI()
    }

    method UpdateURI(channelName: string, characterName: string)
      modifies uri
      ensures uri.path == SkillsPath
    {
      uri.SetPath(SkillsPath);
    }

    method ProcessGameState(state: DataRead)
      modifies this
      ensures State() == SkillsStep(old(State()), state.skillLevels)
    {
      sendRequired := false;
      var newSkills := CollectSkillStrings(state.skillLevels);
      SymmetricExceptNonEmpty(hashedSkills, newSkills);
      hashedSkills := SymmetricExcept(hashedSkills, newSkills);
      if |hashedSkills| > 0 {
        sendRequired := true;
      }
      hashedSkills := newSkills;
      skillState := Some(state.skillLevels);
    }

    function IsSendRequired(): bool
      reads this
    {
      sendRequired
    }

    function GetPacket(channel: string, c: CharacterView): SSPacket
      reads this
    {
      NewSSPacket(channel, c, SkillLevels(skillState))
    }
  }

  /* ---------- The service ---------- */

  datatype HandlerKind = EquippedHandler | SkillsHandler | GoldHandler | AttributesHandler

  /** A snapshot waiting to be sent: the handler, its address and its
      packet. */
  datatype Queued = Queued(handler: HandlerKind, uri: string, packet: SSPacket)

  /** A handler's place in the service's handler list. */
  function Rank(k: HandlerKind): nat {
    match k
    case EquippedHandler => 0
    case SkillsHandler => 1
    case GoldHandler => 2
    case AttributesHandler => 3
  }

  /** The entries appear in handler-list order, each handler at most once. */
  predicate InHandlerOrder(q: seq<Queued>) {
    forall i, j :: 0 <= i < j < |q| ==> Rank(q[i].handler) < Rank(q[j].handler)
  }

  function EntryIf(send: bool, k: HandlerKind, uri: string, packet: SSPacket): seq<Queued>
  {
    if send then [Queued(k, uri, packet)] else []
  }

  /** What the equipped handler in state `r` queues for character `c`. */
  function EquippedEntry(r: EquippedState, c: CharacterView, enabled: bool): seq<Queued> {
    EntryIf(r.sendRequired && enabled, EquippedHandler, Origin + ItemsPath,
            NewSSPacket(Channel, c, Items(r.equipment, r.charms)))
  }

  /** What the skills handler in state `r` queues for character `c`. */
  function SkillsEntry(r: SkillsState, c: CharacterView, enabled: bool): seq<Queued> {
    EntryIf(r.sendRequired && enabled, SkillsHandler, Origin + SkillsPath,
            NewSSPacket(Channel, c, SkillLevels(r.skillState)))
  }

  /** What the gold handler in state `r` queues for character `c`. */
  function GoldEntry(r: GoldState, c: CharacterView, enabled: bool): seq<Queued> {
    EntryIf(r.sendRequired && enabled, GoldHandler, Origin + GoldPath,
            NewSSPacket(Channel, c, Values(r.values)))
  }

  /** What the attributes handler in state `r` queues for character `c`. */
  function AttributesEntry(r: AttributesState, c: CharacterView, enabled: bool): seq<Queued> {
    EntryIf(r.sendRequired && enabled, AttributesHandler, Origin + AttributesPath,
            NewSSPacket(Channel, c, Values(r.values)))
  }

  /** The queue built from the handlers' states once each has processed
      the event: the entries of those that require a send, in list order. */
  function Pending(eq: EquippedState, sk: SkillsState, go: GoldState, at: AttributesState,
                   c: CharacterView, enabled: bool): seq<Queued>
  {
    EquippedEntry(eq, c, enabled) + SkillsEntry(sk, c, enabled) +
    GoldEntry(go, c, enabled) + AttributesEntry(at, c, enabled)
  }

  /** Whether the queue holds an entry of handler `k`. */
  predicate Queues(q: seq<Queued>, k: HandlerKind) {
    exists i :: 0 <= i < |q| && q[i].handler == k
  }

  lemma QueuesAppend(a: seq<Queued>, b: seq<Queued>, k: HandlerKind)
    ensures Queues(a + b, k) <==> Queues(a, k) || Queues(b, k)
  {
    if Queues(a + b, k) {
      var i :| 0 <= i < |a + b| && (a + b)[i].handler == k;
      if i >= |a| {
        assert b[i - |a|].handler == k;
      }
    }
    if Queues(a, k) {
      var i :| 0 <= i < |a| && a[i].handler == k;
      assert (a + b)[i].handler == k;
    }
    if Queues(b, k) {
      var i :| 0 <= i < |b| && b[i].handler == k;
      assert (a + b)[|a| + i].handler == k;
    }
  }

  /** Every entry ranks below `r`. */
  predicate RanksBelow(q: seq<Queued>, r: nat) {
    forall i :: 0 <= i < |q| ==> Rank(q[i].handler) < r
  }

  /** Appending a handler's entry after entries of earlier handlers keeps
      the order. */
  lemma AppendInOrder(a: seq<Queued>, send: bool, k: HandlerKind, uri: string, packet: SSPacket)
    requires InHandlerOrder(a) && RanksBelow(a, Rank(k))
    ensures InHandlerOrder(a + EntryIf(send, k, uri, packet))
    ensures RanksBelow(a + EntryIf(send, k, uri, packet), Rank(k) + 1)
  {
  }

  /** The queue follows the handler list and holds each handler at most
      once. */
  lemma PendingInOrder(eq: EquippedState, sk: SkillsState, go: GoldState, at: AttributesState,
                       c: CharacterView, enabled: bool)
    ensures var q := Pending(eq, sk, go, at, c, enabled);
      InHandlerOrder(q) && |q| <= 4 && (!enabled ==> q == [])
  {
    var q1 := EquippedEntry(eq, c, enabled);
    assert InHandlerOrder(q1) && RanksBelow(q1, 1);
    AppendInOrder(q1, sk.sendRequired && enabled, SkillsHandler, Origin + SkillsPath,
                  NewSSPacket(Channel, c, SkillLevels(sk.skillState)));
    var q2 := q1 + SkillsEntry(sk, c, enabled);
    AppendInOrder(q2, go.sendRequired && enabled, GoldHandler, Origin + GoldPath,
                  NewSSPacket(Channel, c, Values(go.values)));
    var q3 := q2 + GoldEntry(go, c, enabled);
    AppendInOrder(q3, at.sendRequired && enabled, AttributesHandler, Origin + AttributesPath,
                  NewSSPacket(Channel, c, Values(at.values)));
  }

  /** The queue holds a handler exactly when the service is enabled and that
      handler requires a send. */
  lemma PendingQueues(eq: EquippedState, sk: SkillsState, go: GoldState, at: AttributesState,
                      c: CharacterView, enabled: bool)
    ensures var q := Pending(eq, sk, go, at, c, enabled);
      (Queues(q, EquippedHandler) <==> enabled && eq.sendRequired) &&
      (Queues(q, SkillsHandler) <==> enabled && sk.sendRequired) &&
      (Queues(q, GoldHandler) <==> enabled && go.sendRequired) &&
      (Queues(q, AttributesHandler) <==> enabled && at.sendRequired)
  {
    var q1, q2, q3, q4 := EquippedEntry(eq, c, enabled), SkillsEntry(sk, c, enabled),
                          GoldEntry(go, c, enabled), AttributesEntry(at, c, enabled);
    forall k: HandlerKind
      ensures Queues(q1 + q2 + q3 + q4, k) <==> Queues(q1, k) || Queues(q2, k) || Queues(q3, k) || Queues(q4, k)
    {
      QueuesAppend(q1, q2, k);
      QueuesAppend(q1 + q2, q3, k);
      QueuesAppend(q1 + q2 + q3, q4, k);
    }
    if |q1| == 1 { assert q1[0].handler == EquippedHandler; }
    if |q2| == 1 { assert q2[0].handler == SkillsHandler; }
    if |q3| == 1 { assert q3[0].handler == GoldHandler; }
    if |q4| == 1 { assert q4[0].handler == AttributesHandler; }
  }

  /** The same event handled twice in a row: the second time nothing is
      queued. */
  lemma PendingQuiet(eq: EquippedState, sk: SkillsState, go: GoldState, at: AttributesState,
                     e: DataRead, enabled: bool)
    requires GoldValid(go)
    ensures GoldValid(GoldStep(go, e.character))
    ensures Pending(EquippedStep(EquippedStep(eq, e.structuredInventory), e.structuredInventory),
                    SkillsStep(SkillsStep(sk, e.skillLevels), e.skillLevels),
                    GoldStep(GoldStep(go, e.character), e.character),
                    AttributesStep(AttributesStep(at, e.character), e.character), e.character, enabled) == []
  {
    EquippedStepQuiet(eq, e.structuredInventory);
    GoldStepQuiet(go, e.character);
    AttributesStepQuiet(at, e.character);
  }

  class SSBackendService {
    const equipped: EquippedEndpointHandler
    const skills: SkillsEndpointHandler
    const gold: GoldEndpointHandler
    const attributes: AttributesEndpointHandler
    var enabled: bool
    /** The snapshots handed to the HTTP client, in the order they were sent. */
    var sent: seq<Queued>

    ghost predicate Valid()
      reads this, equipped, gold, attributes
    {
      equipped.Valid() && gold.Valid() && attributes.Valid() &&
      equipped.uri != skills.uri && equipped.uri != gold.uri && equipped.uri != attributes.uri &&
      skills.uri != gold.uri && skills.uri != attributes.uri && gold.uri != attributes.uri
    }

    constructor(enabled: bool)
      ensures Valid() && this.enabled == enabled && sent == []
      ensures fresh(equipped) && fresh(skills) && fresh(gold) && fresh(attributes)
      ensures equipped.State() == InitialEquipped && skills.State() == InitialSkills
      ensures gold.State() == InitialGold && attributes.State() == InitialAttributes
    {
      equipped := new EquippedEndpointHandler();
      skills := new SkillsEndpointHandler();
      gold := new GoldEndpointHandler();
      attributes := new AttributesEndpointHandler();
      this.enabled := enabled;
      sent := [];
    }

    method SettingsChanged(enabled: bool)
      modifies this
      ensures this.enabled == enabled && sent == old(sent)
    {
      this.enabled := enabled;
    }

    /** Every handler processes the event in list order; the packets of those
        that require a send are queued and then sent first-in first-out. */
    method OnDataRead(e: DataRead)
      requires Valid()
      modifies equipped, equipped.uri, skills, skills.uri, gold, gold.uri, attributes, attributes.uri, this`sent
      ensures Valid()
      ensures equipped.State() == EquippedStep(old(equipped.State()), e.structuredInventory)
      ensures skills.State() == SkillsStep(old(skills.State()), e.skillLevels)
      ensures gold.State() == GoldStep(old(gold.State()), e.character)
      ensures attributes.State() == AttributesStep(old(attributes.State()), e.character)
      ensures equipped.uri.path == ItemsPath && skills.uri.path == SkillsPath
      ensures gold.uri.path == GoldPath && attributes.uri.path == AttributesPath
      ensures sent == old(sent) + Pending(equipped.State(), skills.State(), gold.State(),
                                          attributes.State(), e.character, enabled)
    {
      ghost var eq0, sk0, go0, at0 := equipped.State(), skills.State(), gold.State(), attributes.State();
      var sendingHandlers: seq<Queued> := [];
      sendingHandlers := VisitEquipped(e, sendingHandlers);
      ghost var eq := equipped.State();
      assert eq == EquippedStep(eq0, e.structuredInventory);
      sendingHandlers := VisitSkills(e, sendingHandlers);
      ghost var sk := skills.State();
      assert sk == SkillsStep(sk0, e.skillLevels);
      sendingHandlers := VisitGold(e, sendingHandlers);
      ghost var go := gold.State();
      assert go == GoldStep(go0, e.character);
      sendingHandlers := VisitAttributes(e, sendingHandlers);
      ghost var at := attributes.State();
      assert at == AttributesStep(at0, e.character);
      assert equipped.State() == eq && skills.State() == sk && gold.State() == go;
      assert sendingHandlers == Pending(eq, sk, go, at, e.character, enabled) by {
        assert [] + EquippedEntry(eq, e.character, enabled) == EquippedEntry(eq, e.character, enabled);
      }
      SendQueued(sendingHandlers);
    }

    method VisitEquipped(e: DataRead, queue: seq<Queued>) returns (q: seq<Queued>)
      modifies equipped, equipped.uri
      ensures equipped.Valid()
      ensures equipped.State() == EquippedStep(old(equipped.State()), e.structuredInventory)
      ensures equipped.uri.path == ItemsPath
      ensures q == queue + EquippedEntry(equipped.State(), e.character, enabled)
    {
      q := queue;
      equipped.UpdateURI(Channel, e.character.name);
      equipped.ProcessGameState(e);
      if equipped.IsSendRequired() && enabled {
        q := q + [Queued(EquippedHandler, equipped.GetURI(), equipped.GetPacket(Channel, e.character))];
      }
    }

    method VisitSkills(e: DataRead, queue: seq<Queued>) returns (q: seq<Queued>)
      modifies skills, skills.uri
      ensures skills.State() == SkillsStep(old(skills.State()), e.skillLevels)
      ensures skills.uri.path == SkillsPath
      ensures q == queue + SkillsEntry(skills.State(), e.character, enabled)
    {
      q := queue;
      skills.UpdateURI(Channel, e.character.name);
      skills.ProcessGameState(e);
      if skills.IsSendRequired() && enabled {
        q := q + [Queued(SkillsHandler, skills.GetURI(), skills.GetPacket(Channel, e.character))];
      }
    }

    method VisitGold(e: DataRead, queue: seq<Queued>) returns (q: seq<Queued>)
      requires gold.Valid()
      modifies gold, gold.uri
      ensures gold.Valid()
      ensures gold.State() == GoldStep(old(gold.State()), e.character)
      ensures gold.uri.path == GoldPath
      ensures q == queue + GoldEntry(gold.State(), e.character, enabled)
    {
      q := queue;
      gold.UpdateURI(Channel, e.character.name);
      gold.ProcessGameState(e);
      if gold.IsSendRequired() && enabled {
        q := q + [Queued(GoldHandler, gold.GetURI(), gold.GetPacket(Channel, e.character))];
      }
    }

    method VisitAttributes(e: DataRead, queue: seq<Queued>) returns (q: seq<Queued>)
      requires attributes.Valid()
      modifies attributes, attributes.uri
      ensures attributes.Valid()
      ensures attributes.State() == AttributesStep(old(attributes.State()), e.character)
      ensures attributes.uri.path == AttributesPath
      ensures q == queue + AttributesEntry(attributes.State(), e.character, enabled)
    {
      q := queue;
      attributes.UpdateURI(Channel, e.character.name);
      attributes.ProcessGameState(e);
      if attributes.IsSendRequired() && enabled {
        q := q + [Queued(AttributesHandler, attributes.GetURI(), attributes.GetPacket(Channel, e.character))];
      }
    }

    /** The `while` that dequeues and sends: the queue is sent in order. */
    method SendQueued(queue: seq<Queued>)
      modifies this`sent
      ensures sent == old(sent) + queue
    {
      var sendingHandlers := queue;
      while |sendingHandlers| > 0
        invariant |sendingHandlers| <= |queue|
        invariant sendingHandlers == queue[|queue| - |sendingHandlers|..]
        invariant sent == old(sent) + queue[..|queue| - |sendingHandlers|]
        decreases |sendingHandlers|
      {
        var currentHandler := sendingHandlers[0];
        sendingHandlers := sendingHandlers[1..];
        sent := sent + [currentHandler];
      }
      assert queue[..|queue|] == queue;
    }
  }
}
