/** The second statistics backend service: three endpoint handlers (equipped
    items, skills, gold) that compare each data-read event with what they last
    saw, and a dispatcher that queues a packet for every handler that needs to
    send and then sends the queue in order. Unlike the first service it has no
    switch that disables it, and its skills handler compares the skill names
    and the set of skill levels separately. */
module NSTBackend {
  import opened Wrappers
  import opened Bits
  import opened BackendData

  const Scheme: string := "http"
  const Authority: string := "//localhost:8080"
  /** Where every endpoint of this service lives. */
  const Origin: string := "http://localhost:8080"
  const Channel: string := "test_channel"

  const GoldPath: string := "/snapshots/gold"
  const ItemsPath: string := "/snapshots/items"
  const SkillsPath: string := "/snapshots/skills"

  /** An endpoint: fixed scheme and authority, and a path that is set or
      appended to. The path starts out unset, which reads as empty. */
  class NSTEndpoint {
    var path: string

    constructor()
      ensures path == ""
    {
      path := "";
    }

    method SetPath(p: string)
      modifies this
      ensures path == p
    {
      path := p;
    }

    method AppendPath(p: string)
      modifies this
      ensures path == old(path) + p
      ensures GetURI() == old(GetURI()) + p
    {
      path := path + p;
    }

    /** The address: scheme, colon, authority, then the path. */
    function GetURI(): (r: string)
      reads this
      ensures r == Origin + path
    {
      Scheme + ":" + Authority + path
    }
  }

  /** A packet: channel, the character's name, class and level, and the
      handler's payload. */
  datatype NSTPacket = NSTPacket(
    channel: string,
    characterName: string,
    characterClass: string,
    characterLevel: int32,
    payload: Payload)

  function NewNSTPacket(channel: string, c: CharacterView, payload: Payload): NSTPacket {
    NSTPacket(channel, c.name, c.charClass, c.level, payload)
  }

  /* ---------- Skills: names and levels as two sets ---------- */

  /** The skills handler's fields. The skill levels are unset until the
      first event. */
  datatype SkillsState = SkillsState(
    hashedSkillNames: set<string>,
    hashedSkillLevels: set<int32>,
    skillState: Option<map<string, int32>>,
    sendRequired: bool)

  const InitialSkills: SkillsState := SkillsState({}, {}, None, false)

  /** The skills handler's reaction to one event: the skill names, the set
      of levels and the levels replace the stored ones, and a send is
      required exactly when the names or the set of levels differ from the
      stored ones. */
  ghost function SkillsStep(s: SkillsState, levels: map<string, int32>): SkillsState
  {
    SkillsState(levels.Keys, LevelSet(levels), Some(levels),
                SkillSetsDiffer(s.hashedSkillNames, s.hashedSkillLevels, levels))
  }

  /** The same skills seen twice in a row: the second event sends nothing. */
  lemma SkillsStepQuiet(s: SkillsState, levels: map<string, int32>)
    ensures !SkillsStep(SkillsStep(s, levels), levels).sendRequired
  {
  }

  /* ---------- Handlers ---------- */

  class GoldEndpointHandler {
    const uri: NSTEndpoint
    var values: map<string, int32>
    var sendRequired: bool
    var initialized: bool
    var characterName: Option<string>

    function State(): GoldState
      reads this
    {
      GoldState(values, sendRequired, initialized, characterName)
    }

    ghost predicate Valid()
      reads this
    {
      GoldValid(State())
    }

    constructor()
      ensures Valid() && State() == InitialGold
      ensures fresh(uri) && uri.path == ""
    {
      uri := new NSTEndpoint();
      values := GoldValues(0, 0);
      sendRequired := false;
      initialized := false;
      characterName := None;
    }

    function GetURI(): string
      reads this, uri
    {
      uri.GetURI()
    }

    method UpdateURI(channelName: string, characterName: string)
      modifies uri
      ensures uri.path == GoldPath
    {
      uri.SetPath(GoldPath);
    }

    /** Take over the character's total with a zero delta. */
    method ProcessInitialState(state: DataRead)
      requires Valid()
      modifies this
      ensures Valid()
      ensures values == GoldValues(TotalGold(state.character), 0)
      ensures initialized && characterName == Some(state.character.name)
      ensures sendRequired == old(sendRequired)
    {
      characterName := Some(state.character.name);
      values := values["currentGold" := TotalGold(state.character)];
      values := values["delta" := 0];
      initialized := true;
    }

    method ProcessGameState(state: DataRead)
      requires Valid()
      modifies this
      ensures Valid()
      ensures State() == GoldStep(old(State()), state.character)
    {
      sendRequired := false;
      if !initialized || characterName != Some(state.character.name) {
        ProcessInitialState(state);
        return;
      }
      var newGold := TotalGold(state.character);
      if values["currentGold"] != newGold {
        values := values["delta" := GoldDelta(newGold, values["currentGold"])];
        values := values["currentGold" := newGold];
        sendRequired := true;
      }
    }

    function IsSendRequired(): bool
      reads this
    {
      sendRequired
    }

    function GetPacket(channel: string, c: CharacterView): NSTPacket
      reads this
    {
      NewNSTPacket(channel, c, Values(values))
    }
  }

  class EquippedEndpointHandler {
    const uri: NSTEndpoint
    var hashedEquipmentState: set<string>
    var equipmentState: map<int, StructuredItem>
    var hashedCharmState: set<int>
    var charmState: map<int, StructuredItem>
    var sendRequired: bool

    function State(): EquippedState
      reads this
    {
      EquippedState(hashedEquipmentState, equipmentState, hashedCharmState, charmState, sendRequired)
    }

    ghost predicate Valid()
      reads this
    {
      EquippedConsistent(State())
    }

    constructor()
      ensures Valid() && State() == InitialEquipped
      ensures fresh(uri) && uri.path == ""
    {
      uri := new NSTEndpoint();
      hashedEquipmentState := {};
      equipmentState := map[];
      hashedCharmState := {};
      charmState := map[];
      sendRequired := false;
    }

    function GetURI(): string
      reads this, uri
    {
      uri.GetURI()
    }

    method UpdateURI(channelName: string, characterName: string)
      modifies uri
      ensures uri.path == ItemsPath
    {
      uri.SetPath(ItemsPath);
    }

    method ProcessGameState(state: DataRead)
      modifies this
      ensures Valid()
      ensures State() == EquippedStep(old(State()), state.structuredInventory)
    {
      sendRequired := false;
      CompareEquipment(state.structuredInventory);
      CompareCharms(state.structuredInventory);
    }

    /** The equipped-items half: a changed set of item texts requires a
        send; the new items and texts replace the stored ones. */
    method CompareEquipment(inventory: map<int, StructuredItem>)
      modifies this`hashedEquipmentState, this`equipmentState, this`sendRequired
      ensures equipmentState == EquippedItems(inventory)
      ensures hashedEquipmentState == EquippedHash(equipmentState)
      ensures sendRequired == (old(sendRequired) || old(hashedEquipmentState) != hashedEquipmentState)
    {
      var newEquippedItems := EquippedItems(inventory);
      var newHashedEquipped := HashEquipped(newEquippedItems);
      SymmetricExceptNonEmpty(hashedEquipmentState, newHashedEquipped);
      hashedEquipmentState := SymmetricExcept(hashedEquipmentState, newHashedEquipped);
      if |hashedEquipmentState| > 0 {
        sendRequired := true;
      }
      hashedEquipmentState := newHashedEquipped;
      equipmentState := newEquippedItems;
    }

    /** The charms half: a changed set of charm keys requires a send; the
        new charms and keys replace the stored ones. */
    method CompareCharms(inventory: map<int, StructuredItem>)
      modifies this`hashedCharmState, this`charmState, this`sendRequired
      ensures charmState == CharmItems(inventory)
      ensures hashedCharmState == CharmHash(charmState)
      ensures sendRequired == (old(sendRequired) || old(hashedCharmState) != hashedCharmState)
    {
      var newEquippedCharms := CharmItems(inventory);
      var newCharmsHash := CharmHash(newEquippedCharms);
      SymmetricExceptNonEmpty(hashedCharmState, newCharmsHash);
      hashedCharmState := SymmetricExcept(hashedCharmState, newCharmsHash);
      if |hashedCharmState| > 0 {
        sendRequired := true;
      }
      hashedCharmState := newCharmsHash;
      charmState := newEquippedCharms;
    }

    function IsSendRequired(): bool
      reads this
    {
      sendRequired
    }

    /** The payload: the equipped items, then the charms. */
    function GetPacket(channel: string, c: CharacterView): NSTPacket
      reads this
    {
      NewNSTPacket(channel, c, Items(equipmentState, charmState))
    }
  }

  class SkillsEndpointHandler {
    const uri: NSTEndpoint
    var hashedSkillNames: set<string>
    var hashedSkillLevels: set<int32>
    var skillState: Option<map<string, int32>>
    var sendRequired: bool

    function State(): SkillsState
      reads this
    {
      SkillsState(hashedSkillNames, hashedSkillLevels, skillState, sendRequired)
    }

    constructor()
      ensures State() == InitialSkills
      ensures fresh(uri) && uri.path == ""
    {
      uri := new NSTEndpoint();
      hashedSkillNames := {};
      hashedSkillLevels := {};
      skillState := None;
      sendRequired := false;
    }

    function GetURI(): string
      reads this, uri
    {
      uri.GetURI()
    }

    method UpdateURI(channelName: string, characterName: string)
      modifies uri
      ensures uri.path == SkillsPath
    {
      uri.SetPath(SkillsPath);
    }

    method ProcessGameState(state: DataRead)
      modifies this
      ensures State() == SkillsStep(old(State()), state.skillLevels)
    {
      sendRequired := false;
      CompareSkills(state.skillLevels);
      skillState := Some(state.skillLevels);
    }

    /** The comparison proper: changed skill names or a changed set of
        levels requires a send; the new sets replace the stored ones. */
    method CompareSkills(levels: map<string, int32>)
      modifies this`hashedSkillNames, this`hashedSkillLevels, this`sendRequired
      ensures hashedSkillNames == levels.Keys && hashedSkillLevels == LevelSet(levels)
      ensures sendRequired == (old(sendRequired) ||
                               SkillSetsDiffer(old(hashedSkillNames), old(hashedSkillLevels), levels))
    {
      var newSkillNames := CollectSkillNames(levels);
      var newSkillLevels := CollectSkillLevels(levels);
      assert newSkillNames == levels.Keys;
      SkillCountsSignalChange(hashedSkillNames, hashedSkillLevels, levels, newSkillNames, newSkillLevels);
      hashedSkillNames := SymmetricExcept(hashedSkillNames, newSkillNames);
      hashedSkillLevels := SymmetricExcept(hashedSkillLevels, newSkillLevels);
      if |hashedSkillNames| > 0 || |hashedSkillLevels| > 0 {
        sendRequired := true;
      }
      hashedSkillNames := newSkillNames;
      hashedSkillLevels := newSkillLevels;
    }

    function IsSendRequired(): bool
      reads this
    {
      sendRequired
    }

    function GetPacket(channel: string, c: CharacterView): NSTPacket
      reads this
    {
      NewNSTPacket(channel, c, SkillLevels(skillState))
    }
  }

  /* ---------- The service ---------- */

  datatype HandlerKind = EquippedHandler | SkillsHandler | GoldHandler

  /** A snapshot waiting to be sent: the handler, its address and its
      packet. */
  datatype Queued = Queued(handler: HandlerKind, uri: string, packet: NSTPacket)

  /** A handler's place in the service's handler list. */
  function Rank(k: HandlerKind): nat {
    match k
    case EquippedHandler => 0
    case SkillsHandler => 1
    case GoldHandler => 2
  }

  /** The entries appear in handler-list order, each handler at most once. */
  predicate InHandlerOrder(q: seq<Queued>) {
    forall i, j :: 0 <= i < j < |q| ==> Rank(q[i].handler) < Rank(q[j].handler)
  }

  function EntryIf(send: bool, k: HandlerKind, uri: string, packet: NSTPacket): seq<Queued>
  {
    if send then [Queued(k, uri, packet)] else []
  }

  /** What the equipped handler in state `r` queues for character `c`. */
  function EquippedEntry(r: EquippedState, c: CharacterView): seq<Queued> {
    EntryIf(r.sendRequired, EquippedHandler, Origin + ItemsPath,
            NewNSTPacket(Channel, c, Items(r.equipment, r.charms)))
  }

  /** What the skills handler in state `r` queues for character `c`. */
  function SkillsEntry(r: SkillsState, c: CharacterView): seq<Queued> {
    EntryIf(r.sendRequired, SkillsHandler, Origin + SkillsPath,
            NewNSTPacket(Channel, c, SkillLevels(r.skillState)))
  }

  /** What the gold handler in state `r` queues for character `c`. */
  function GoldEntry(r: GoldState, c: CharacterView): seq<Queued> {
    EntryIf(r.sendRequired, GoldHandler, Origin + GoldPath,
            NewNSTPacket(Channel, c, Values(r.values)))
  }

  /** The queue built from the handlers' states once each has processed
      the event: the entries of those that require a send, in list order. */
  function Pending(eq: EquippedState, sk: SkillsState, go: GoldState, c: CharacterView): seq<Queued>
  {
    EquippedEntry(eq, c) + SkillsEntry(sk, c) + GoldEntry(go, c)
  }

  /** Whether the queue holds an entry of handler `k`. */
  predicate Queues(q: seq<Queued>, k: HandlerKind) {
    exists i :: 0 <= i < |q| && q[i].handler == k
  }

  lemma QueuesAppend(a: seq<Queued>, b: seq<Queued>, k: HandlerKind)
    ensures Queues(a + b, k) <==> Queues(a, k) || Queues(b, k)
  {
    if Queues(a + b, k) {
      var i :| 0 <= i < |a + b| && (a + b)[i].handler == k;
      if i >= |a| {
        assert b[i - |a|].handler == k;
      }
    }
    if Queues(a, k) {
      var i :| 0 <= i < |a| && a[i].handler == k;
      assert (a + b)[i].handler == k;
    }
    if Queues(b, k) {
      var i :| 0 <= i < |b| && b[i].handler == k;
      assert (a + b)[|a| + i].handler == k;
    }
  }

  /** Every entry ranks below `r`. */
  predicate RanksBelow(q: seq<Queued>, r: nat) {
    forall i :: 0 <= i < |q| ==> Rank(q[i].handler) < r
  }

  /** Appending a handler's entry after entries of earlier handlers keeps
      the order. */
  lemma AppendInOrder(a: seq<Queued>, send: bool, k: HandlerKind, uri: string, packet: NSTPacket)
    requires InHandlerOrder(a) && RanksBelow(a, Rank(k))
    ensures InHandlerOrder(a + EntryIf(send, k, uri, packet))
    ensures RanksBelow(a + EntryIf(send, k, uri, packet), Rank(k) + 1)
  {
  }

  /** The queue follows the handler list and holds each handler at most
      once. */
  lemma PendingInOrder(eq: EquippedState, sk: SkillsState, go: GoldState, c: CharacterView)
    ensures var q := Pending(eq, sk, go, c);
      InHandlerOrder(q) && |q| <= 3
  {
    var q1 := EquippedEntry(eq, c);
    assert InHandlerOrder(q1) && RanksBelow(q1, 1);
    AppendInOrder(q1, sk.sendRequired, SkillsHandler, Origin + SkillsPath,
                  NewNSTPacket(Channel, c, SkillLevels(sk.skillState)));
    var q2 := q1 + SkillsEntry(sk, c);
    AppendInOrder(q2, go.sendRequired, GoldHandler, Origin + GoldPath,
                  NewNSTPacket(Channel, c, Values(go.values)));
  }

  /** With no switch to disable the service, the queue holds a handler
      exactly when that handler requires a send. */
  lemma PendingQueues(eq: EquippedState, sk: SkillsState, go: GoldState, c: CharacterView)
    ensures var q := Pending(eq, sk, go, c);
      (Queues(q, EquippedHandler) <==> eq.sendRequired) &&
      (Queues(q, SkillsHandler) <==> sk.sendRequired) &&
      (Queues(q, GoldHandler) <==> go.sendRequired)
  {
    var q1, q2, q3 := EquippedEntry(eq, c), SkillsEntry(sk, c), GoldEntry(go, c);
    forall k: HandlerKind
      ensures Queues(q1 + q2 + q3, k) <==> Queues(q1, k) || Queues(q2, k) || Queues(q3, k)
    {
      QueuesAppend(q1, q2, k);
      QueuesAppend(q1 + q2, q3, k);
    }
    if |q1| == 1 { assert q1[0].handler == EquippedHandler; }
    if |q2| == 1 { assert q2[0].handler == SkillsHandler; }
    if |q3| == 1 { assert q3[0].handler == GoldHandler; }
  }

  /** The same event handled twice in a row: the second time nothing is
      queued. */
  lemma PendingQuiet(eq: EquippedState, sk: SkillsState, go: GoldState, e: DataRead)
    requires GoldValid(go)
    ensures GoldValid(GoldStep(go, e.character))
    ensures Pending(EquippedStep(EquippedStep(eq, e.structuredInventory), e.structuredInventory),
                    SkillsStep(SkillsStep(sk, e.skillLevels), e.skillLevels),
                    GoldStep(GoldStep(go, e.character), e.character), e.character) == []
  {
    EquippedStepQuiet(eq, e.structuredInventory);
    GoldStepQuiet(go, e.character);
  }

  class NSTBackendService {
    const equipped: EquippedEndpointHandler
    const skills: SkillsEndpointHandler
    const gold: GoldEndpointHandler
    /** The snapshots handed to the HTTP client, in the order they were sent. */
    var sent: seq<Queued>

    ghost predicate Valid()
      reads this, equipped, gold
    {
      equipped.Valid() && gold.Valid() &&
      equipped.uri != skills.uri && equipped.uri != gold.uri && skills.uri != gold.uri
    }

    constructor()
      ensures Valid() && sent == []
      ensures fresh(equipped) && fresh(skills) && fresh(gold)
      ensures equipped.State() == InitialEquipped && skills.State() == InitialSkills
      ensures gold.State() == InitialGold
    {
      equipped := new EquippedEndpointHandler();
      skills := new SkillsEndpointHandler();
      gold := new GoldEndpointHandler();
      sent := [];
    }

    /** Every handler processes the event in list order; the packets of those
        that require a send are queued and then sent first-in first-out. */
    method OnDataRead(e: DataRead)
      requires Valid()
      modifies equipped, equipped.uri, skills, skills.uri, gold, gold.uri, this`sent
      ensures Valid()
      ensures equipped.State() == EquippedStep(old(equipped.State()), e.structuredInventory)
      ensures skills.State() == SkillsStep(old(skills.State()), e.skillLevels)
      ensures gold.State() == GoldStep(old(gold.State()), e.character)
      ensures equipped.uri.path == ItemsPath && skills.uri.path == SkillsPath && gold.uri.path == GoldPath
      ensures sent == old(sent) + Pending(equipped.State(), skills.State(), gold.State(), e.character)
    {
      ghost var eq0, sk0, go0 := equipped.State(), skills.State(), gold.State();
      var sendingHandlers: seq<Queued> := [];
      sendingHandlers := VisitEquipped(e, sendingHandlers);
      ghost var eq := equipped.State();
      assert eq == EquippedStep(eq0, e.structuredInventory);
      sendingHandlers := VisitSkills(e, sendingHandlers);
      ghost var sk := skills.State();
      assert sk == SkillsStep(sk0, e.skillLevels);
      sendingHandlers := VisitGold(e, sendingHandlers);
      ghost var go := gold.State();
      assert go == GoldStep(go0, e.character);
      assert equipped.State() == eq && skills.State() == sk;
      assert sendingHandlers == Pending(eq, sk, go, e.character) by {
        assert [] + EquippedEntry(eq, e.character) == EquippedEntry(eq, e.character);
      }
      SendQueued(sendingHandlers);
    }

    method VisitEquipped(e: DataRead, queue: seq<Queued>) returns (q: seq<Queued>)
      modifies equipped, equipped.uri
      ensures equipped.Valid()
      ensures equipped.State() == EquippedStep(old(equipped.State()), e.structuredInventory)
      ensures equipped.uri.path == ItemsPath
      ensures q == queue + EquippedEntry(equipped.State(), e.character)
    {
      q := queue;
      equipped.UpdateURI(Channel, e.character.name);
      equipped.ProcessGameState(e);
      if equipped.IsSendRequired() {
        q := q + [Queued(EquippedHandler, equipped.GetURI(), equipped.GetPacket(Channel, e.character))];
      }
    }

    method VisitSkills(e: DataRead, queue: seq<Queued>) returns (q: seq<Queued>)
      modifies skills, skills.uri
      ensures skills.State() == SkillsStep(old(skills.State()), e.skillLevels)
      ensures skills.uri.path == SkillsPath
      ensures q == queue + SkillsEntry(skills.State(), e.character)
    {
      q := queue;
      skills.UpdateURI(Channel, e.character.name);
      skills.ProcessGameState(e);
      if skills.IsSendRequired() {
        q := q + [Queued(SkillsHandler, skills.GetURI(), skills.GetPacket(Channel, e.character))];
      }
    }

    method VisitGold(e: DataRead, queue: seq<Queued>) returns (q: seq<Queued>)
      requires gold.Valid()
      modifies gold, gold.uri
      ensures gold.Valid()
      ensures gold.State() == GoldStep(old(gold.State()), e.character)
      ensures gold.uri.path == GoldPath
      ensures q == queue + GoldEntry(gold.State(), e.character)
    {
      q := queue;
      gold.UpdateURI(Channel, e.character.name);
      gold.ProcessGameState(e);
      if gold.IsSendRequired() {
        q := q + [Queued(GoldHandler, gold.GetURI(), gold.GetPacket(Channel, e.character))];
      }
    }

    /** The `while` that dequeues and sends: the queue is sent in order. */
    method SendQueued(queue: seq<Queued>)
      modifies this`sent
      ensures sent == old(sent) + queue
    {
      var sendingHandlers := queue;
      while |sendingHandlers| > 0
        invariant |sendingHandlers| <= |queue|
        invariant sendingHandlers == queue[|queue| - |sendingHandlers|..]
        invariant sent == old(sent) + queue[..|queue| - |sendingHandlers|]
        decreases |sendingHandlers|
      {
        var currentHandler := sendingHandlers[0];
        sendingHandlers := sendingHandlers[1..];
        sent := sent + [currentHandler];
      }
      assert queue[..|queue|] == queue;
    }
  }
}
