/** The acquisition loop of the data reader: per tick, resolve the game, track
    the character, decode the quest buffers, read area, difficulty, equipped
    item strings and inventory ids as the enable flags say, and publish one
    "data read" event; between ticks, swap in a pending memory table. */
module D2Reader {
  import opened Wrappers
  import opened ProcessMemory
  import opened GameResolution
  import opened QuestDecoding
  import opened ItemReading
  import CharacterIdentity

  type Character = CharacterIdentity.Character

  /** `DataReaderEnableFlags`: the optional sub-reads of a tick. */
  datatype EnableFlag = CurrentArea | CurrentDifficulty | QuestBuffers | InventoryItemIds | EquippedItemStrings

  /** The flags a new reader starts with: everything except equipped strings. */
  const DefaultReadFlags: set<EnableFlag> := {CurrentArea, CurrentDifficulty, QuestBuffers, InventoryItemIds}

  /** The payload of a "data read" event (`DataReadEventArgs`). */
  datatype Snapshot = Snapshot(
    character: Character,
    itemStrings: map<BodyLocation, string>,
    currentArea: int,
    currentDifficulty: byte,
    itemIds: seq<int>,
    isAutosplitCharacter: bool,
    questBuffers: map<int, seq<ushort>>)

  /** `GetStatValue(...) ?? 0`. */
  function OrZero(v: Option<int>): int {
    if v.Some? then v.value else 0
  }

  /** What a tick with a player shows the character tracker. */
  function PlayerObservation(info: GameInfo): CharacterIdentity.Observation
    requires info.playerData.Some?
  {
    CharacterIdentity.InGame(info.playerData.value.playerName, OrZero(info.player.level), OrZero(info.player.experience))
  }

  /** `ProcessCurrentArea`: the area byte, or -1 when the flag is off; `None`
      when the read fails. */
  function ProcessCurrentArea(mem: Memory, table: MemoryTable, flags: set<EnableFlag>): (r: Option<int>)
    ensures CurrentArea !in flags ==> r == Some(-1)
    ensures CurrentArea in flags ==> r == (if ReadByte(mem, table.area, Relative).Some?
                                           then Some(ReadByte(mem, table.area, Relative).value as int) else None)
    ensures r.Some? ==> -1 <= r.value <= 255
  {
    if CurrentArea in flags then
      match ReadByte(mem, table.area, Relative)
      case None => None
      case Some(b) => Some(b as int)
    else Some(-1)
  }

  /** `ProcessCurrentDifficulty`: the game's difficulty, or 0 when the flag is
      off. */
  function ProcessCurrentDifficulty(game: Game, flags: set<EnableFlag>): (r: byte)
    ensures CurrentDifficulty !in flags ==> r == 0
    ensures CurrentDifficulty in flags ==> r == game.difficulty
  {
    if CurrentDifficulty in flags then game.difficulty else 0
  }

  /** `ProcessInventoryItemIds`: the item ids, or an empty list when the flag
      is off. */
  function ProcessInventoryItemIds(mem: Memory, flags: set<EnableFlag>): (r: seq<int>)
    ensures InventoryItemIds !in flags ==> r == []
    ensures InventoryItemIds in flags ==> r == ReadInventoryItemIds(mem.inventory)
  {
    if InventoryItemIds in flags then ReadInventoryItemIds(mem.inventory) else []
  }

  /** `ProcessEquippedItemStrings`: the equipped strings, or an empty
      dictionary when the flag is off. */
  method ProcessEquippedItemStrings(mem: Memory, flags: set<EnableFlag>) returns (r: map<BodyLocation, string>)
    ensures EquippedItemStrings !in flags ==> r == map[]
    ensures EquippedItemStrings in flags ==> IsEquippedStrings(mem.inventory, r)
  {
    if EquippedItemStrings in flags {
      r := ReadEquippedItemStrings(mem.inventory);
    } else {
      r := map[];
    }
  }

  /** The quest buffers a tick leaves behind, and whether their reads all
      succeeded. */
  function QuestsOfTick(mem: Memory, playerData: PlayerData, flags: set<EnableFlag>): QuestScan {
    if QuestBuffers in flags then ScanQuests(mem, playerData.quests, |playerData.quests|)
    else QuestScan(map[], true)
  }

  /** One iteration of the polling loop as the environment presents it: the
      table requested by `SetD2Version` since the previous iteration, if any,
      and the target's memory if a valid process reader could be obtained. */
  datatype Iteration = Iteration(requestedTable: Option<MemoryTable>, process: Option<Memory>)

  /** The memory table in effect, and the pending one, after some
      iterations. */
  function TablesAfter(memory: MemoryTable, pending: Option<MemoryTable>, iterations: seq<Iteration>): (MemoryTable, Option<MemoryTable>)
    decreases |iterations|
  {
    if iterations == [] then (memory, pending)
    else
      var it := iterations[0];
      var requested := if it.requestedTable.Some? then it.requestedTable else pending;
      if it.process.None? then TablesAfter(memory, requested, iterations[1..])
      else TablesAfter(if requested.Some? then requested.value else memory, None, iterations[1..])
  }

  /** Without a process the table in effect never changes. */
  lemma {:induction false} NoProcessNoSwap(memory: MemoryTable, pending: Option<MemoryTable>, iterations: seq<Iteration>)
    requires forall i :: 0 <= i < |iterations| ==> iterations[i].process.None?
    ensures TablesAfter(memory, pending, iterations).0 == memory
    decreases |iterations|
  {
    if iterations != [] {
      var it := iterations[0];
      var requested := if it.requestedTable.Some? then it.requestedTable else pending;
      NoProcessNoSwap(memory, requested, iterations[1..]);
    }
  }

  /** The table a run leaves the reader to use: the one requested last, else
      the one pending at the start, else the one in effect at the start. */
  function LastRequested(memory: MemoryTable, pending: Option<MemoryTable>, iterations: seq<Iteration>): MemoryTable
    decreases |iterations|
  {
    if iterations == [] then (if pending.Some? then pending.value else memory)
    else
      var last := iterations[|iterations| - 1];
      if last.requestedTable.Some? then last.requestedTable.value
      else LastRequested(memory, pending, iterations[..|iterations| - 1])
  }

  /** Whatever the run, the pending table if there is one, else the table in
      effect, is the one requested last. */
  lemma {:induction false} TablesAfterUseLastRequested(memory: MemoryTable, pending: Option<MemoryTable>, iterations: seq<Iteration>)
    ensures var (m, p) := TablesAfter(memory, pending, iterations);
            (if p.Some? then p.value else m) == LastRequested(memory, pending, iterations)
    decreases |iterations|
  {
    if iterations != [] {
      var prefix := iterations[..|iterations| - 1];
      var it := iterations[|iterations| - 1];
      assert iterations == prefix + [it];
      TablesAfterUseLastRequested(memory, pending, prefix);
      TablesAfterAppend(memory, pending, prefix, it);
      assert [it][1..] == [];
    }
  }

  /** After an iteration with a process nothing is pending until the next
      request, and the table requested last is in effect. */
  lemma {:induction false} LastRequestTakesEffect(memory: MemoryTable, pending: Option<MemoryTable>, iterations: seq<Iteration>)
    requires iterations != [] && iterations[|iterations| - 1].process.Some?
    ensures TablesAfter(memory, pending, iterations).1 == None
    ensures TablesAfter(memory, pending, iterations).0 == LastRequested(memory, pending, iterations)
  {
    var prefix := iterations[..|iterations| - 1];
    var it := iterations[|iterations| - 1];
    assert iterations == prefix + [it];
    TablesAfterAppend(memory, pending, prefix, it);
    assert [it][1..] == [];
    TablesAfterUseLastRequested(memory, pending, iterations);
  }

  class DataReader {
    var characters: map<string, Character>
    var questBuffers: map<int, seq<ushort>>
    var wasInTitleScreen: bool
    /** The serial of `activeCharacter`, if there is one. */
    var activeCharacter: Option<nat>
    /** The serial the next `new Character()` receives. */
    var nextSerial: nat
    /** `CurrentCharacter`. */
    var character: Option<Character>
    var currentDifficulty: byte
    var memory: MemoryTable
    var nextMemoryTable: Option<MemoryTable>
    var readFlags: set<EnableFlag>
    /** The "character created" events published so far. */
    var createdEvents: seq<Character>
    /** The "data read" events published so far. */
    var dataReadEvents: seq<Snapshot>

    /** The identity state of the reader. */
    function Identity(): CharacterIdentity.Tracker
      reads this
    {
      CharacterIdentity.Tracker(characters, wasInTitleScreen, activeCharacter, nextSerial)
    }

    ghost predicate Valid()
      reads this
    {
      CharacterIdentity.Valid(Identity())
    }

    constructor (table: MemoryTable)
      ensures Valid()
      ensures Identity() == CharacterIdentity.InitialTracker
      ensures questBuffers == map[] && character == None && currentDifficulty == 0
      ensures memory == table && nextMemoryTable == None && readFlags == DefaultReadFlags
      ensures createdEvents == [] && dataReadEvents == []
    {
      characters := map[];
      questBuffers := map[];
      wasInTitleScreen := false;
      activeCharacter := None;
      nextSerial := 0;
      character := None;
      currentDifficulty := 0;
      memory := table;
      nextMemoryTable := None;
      readFlags := DefaultReadFlags;
      createdEvents := [];
      dataReadEvents := [];
    }

    /** `SetD2Version`: the new table only becomes pending. */
    method SetD2Version(table: MemoryTable)
      modifies this`nextMemoryTable
      ensures nextMemoryTable == Some(table)
    {
      nextMemoryTable := Some(table);
    }

    /** `CurrentQuestBuffer`: the buffer of the current difficulty, if one was
      read. */
    function CurrentQuestBuffer(): (r: Option<seq<ushort>>)
      reads this
      ensures r.Some? <==> currentDifficulty as int in questBuffers
      ensures r.Some? ==> r.value == questBuffers[currentDifficulty as int]
    {
      if currentDifficulty as int in questBuffers then Some(questBuffers[currentDifficulty as int]) else None
    }

    /** `IsAutosplitCharacter`. */
    function IsAutosplitCharacter(c: Character): (r: bool)
      reads this
      ensures r <==> CharacterIdentity.IsAutosplitCharacter(Identity(), c)
    {
      activeCharacter == Some(c.serial)
    }

    /** `GetCurrentCharacter`, publishing "character created" for a brand-new
      character. */
    method GetCurrentCharacter(playerName: string, level: int, experience: int) returns (c: Character)
      requires Valid()
      modifies this`characters, this`wasInTitleScreen, this`activeCharacter, this`nextSerial, this`createdEvents
      ensures Valid()
      ensures var r := CharacterIdentity.GetCurrentCharacter(old(Identity()), playerName, level, experience);
              Identity() == r.tracker && c == r.current &&
              createdEvents == old(createdEvents) + (if r.created then [c] else [])
    {
      ghost var t := Identity();
      ghost var r := CharacterIdentity.GetCurrentCharacter(t, playerName, level, experience);
      var found := false;
      if playerName in characters {
        c := characters[playerName];
        found := true;
        // Back from the title screen to a new character.
        var resetOnBeginning := wasInTitleScreen && experience == 0;
        // Experience lost at level 1: a reset, unlike losing experience in
        // the later difficulties after dying.
        var resetOnLevelOne := c.level == 1 && experience < c.experience;
        if resetOnBeginning || resetOnLevelOne || level < c.level {
          characters := characters - {playerName};
          found := false;
        }
      }
      if !found {
        assert playerName !in t.characters || CharacterIdentity.IsReset(t.characters[playerName], t.wasInTitleScreen, level, experience);
        c := CharacterIdentity.Character(nextSerial, playerName, 0, 0);
        nextSerial := nextSerial + 1;
        characters := characters[playerName := c];
        assert characters == t.characters[playerName := c];
        if experience == 0 && level == 1 {
          activeCharacter := Some(c.serial);
          createdEvents := createdEvents + [c];
        }
      } else {
        assert c == t.characters[playerName] && characters == t.characters[playerName := c];
      }
      wasInTitleScreen := false;
    }

    /** `ReadQuestBuffers`: one buffer per non-null quest pointer, under its
      index; a failed read ends the loop (`ok` false). */
    method ReadQuestBuffers(mem: Memory, quests: seq<Address>) returns (ok: bool)
      requires questBuffers == map[]
      modifies this`questBuffers
      ensures QuestScan(questBuffers, ok) == ScanQuests(mem, quests, |quests|)
    {
      for i := 0 to |quests|
        invariant QuestScan(questBuffers, true) == ScanQuests(mem, quests, i)
      {
        if quests[i] == 0 {
          continue;
        }
        var questArray := ReadQuestArray(mem, quests[i]);
        var questBytes := if questArray.Some? then ReadBytes(mem, questArray.value.buffer, questArray.value.length) else None;
        if questBytes.None? {
          ScanQuestsStopsAtFailure(mem, quests, i + 1, |quests|);
          return false;
        }
        var questBuffer := DecodeQuestWords(questBytes.value);
        questBuffers := questBuffers[i := questBuffer];
      }
      ok := true;
    }

    /** `ProcessCharacterData`: resolve the character, then let the stat
      parser store its level and experience. */
    method ProcessCharacterData(info: GameInfo) returns (obs: CharacterIdentity.Observation)
      requires Valid() && info.playerData.Some?
      modifies this`characters, this`wasInTitleScreen, this`activeCharacter, this`nextSerial, this`createdEvents,
               this`character
      ensures Valid()
      ensures obs == PlayerObservation(info) && obs.name in characters
      ensures Identity() == CharacterIdentity.Tick(old(Identity()), obs).0
      ensures createdEvents == old(createdEvents) + CharacterIdentity.EventOf(old(Identity()), obs)
      ensures character == Some(characters[obs.name])
    {
      obs := PlayerObservation(info);
      ghost var t0 := Identity();
      ghost var r := CharacterIdentity.GetCurrentCharacter(t0, obs.name, obs.level, obs.experience);
      var c := GetCurrentCharacter(obs.name, obs.level, obs.experience);
      assert Identity() == r.tracker && c == r.current;
      characters := characters[obs.name := c.(level := obs.level, experience := obs.experience)];
      character := Some(characters[obs.name]);
      assert Identity() == CharacterIdentity.StoreStats(r.tracker, obs.name, obs.level, obs.experience);
      assert CharacterIdentity.Tick(t0, obs).0 == CharacterIdentity.StoreStats(r.tracker, obs.name, obs.level, obs.experience);
    }

    /** `ProcessQuestBuffers`: clear the buffers, then read them if the flag
      is on. */
    method ProcessQuestBuffers(mem: Memory, playerData: PlayerData) returns (ok: bool)
      modifies this`questBuffers
      ensures QuestScan(questBuffers, ok) == QuestsOfTick(mem, playerData, readFlags)
    {
      questBuffers := map[];
      ok := true;
      if QuestBuffers in readFlags {
        ok := ReadQuestBuffers(mem, playerData.quests);
      }
    }

    /** What a tick with a player does: the character is tracked (this is the
      tracker's `Tick`), the quest buffers are replaced, and unless a quest or
      area read fails, the difficulty is updated and one snapshot is
      published. */
    twostate predicate PlayerTicked(mem: Memory, info: GameInfo)
      requires info.playerData.Some?
      reads this
    {
      var obs := PlayerObservation(info);
      var quests := QuestsOfTick(mem, info.playerData.value, readFlags);
      var area := ProcessCurrentArea(mem, memory, readFlags);
      obs.name in characters &&
      Identity() == CharacterIdentity.Tick(old(Identity()), obs).0 &&
      createdEvents == old(createdEvents) + CharacterIdentity.EventOf(old(Identity()), obs) &&
      character == Some(characters[obs.name]) &&
      questBuffers == quests.buffers &&
      (!quests.ok || area.None? ==>
         currentDifficulty == old(currentDifficulty) && dataReadEvents == old(dataReadEvents)) &&
      (quests.ok && area.Some? ==>
         currentDifficulty == ProcessCurrentDifficulty(info.game, readFlags) &&
         |dataReadEvents| == |old(dataReadEvents)| + 1 &&
         dataReadEvents[..|old(dataReadEvents)|] == old(dataReadEvents) &&
         var s := dataReadEvents[|old(dataReadEvents)|];
         s.character == characters[obs.name] &&
         s.currentArea == area.value &&
         s.currentDifficulty == currentDifficulty &&
         (EquippedItemStrings in readFlags ==> IsEquippedStrings(mem.inventory, s.itemStrings)) &&
         (EquippedItemStrings !in readFlags ==> s.itemStrings == map[]) &&
         s.itemIds == ProcessInventoryItemIds(mem, readFlags) &&
         s.isAutosplitCharacter == CharacterIdentity.IsAutosplitCharacter(Identity(), characters[obs.name]) &&
         s.questBuffers == questBuffers)
    }

    /** The part of `ProcessGameData` after a player was found. */
    method ProcessPlayer(mem: Memory, info: GameInfo)
      requires Valid() && info.playerData.Some?
      modifies this`characters, this`wasInTitleScreen, this`activeCharacter, this`nextSerial, this`createdEvents,
               this`character, this`questBuffers, this`currentDifficulty, this`dataReadEvents
      ensures Valid()
      ensures PlayerTicked(mem, info)
    {
      var obs := ProcessCharacterData(info);
      var questsOk := ProcessQuestBuffers(mem, info.playerData.value);
      if !questsOk {
        return;
      }
      var currentArea := ProcessCurrentArea(mem, memory, readFlags);
      if currentArea.None? {
        return;
      }
      currentDifficulty := ProcessCurrentDifficulty(info.game, readFlags);
      var itemStrings := ProcessEquippedItemStrings(mem, readFlags);
      var inventoryItemIds := ProcessInventoryItemIds(mem, readFlags);
      var snapshot := Snapshot(characters[obs.name], itemStrings, currentArea.value, currentDifficulty,
                               inventoryItemIds, IsAutosplitCharacter(characters[obs.name]), questBuffers);
      dataReadEvents := dataReadEvents + [snapshot];
    }

    /** What one tick on `mem` does to the character tracker, the quest
      buffers, the difficulty and the two event logs. */
    twostate predicate GameDataProcessed(mem: Memory)
      reads this
    {
      // No game: only the title-screen flag is set.
      (ReadGameInfo(mem, memory).None? ==>
         Identity() == CharacterIdentity.EnterTitleScreen(old(Identity())) &&
         questBuffers == old(questBuffers) && character == old(character) &&
         currentDifficulty == old(currentDifficulty) &&
         createdEvents == old(createdEvents) && dataReadEvents == old(dataReadEvents)) &&
      // A player without player data: the name cannot be read and the tick is
      // abandoned before anything changes.
      (ReadGameInfo(mem, memory).Some? && ReadGameInfo(mem, memory).value.playerData.None? ==>
         Identity() == old(Identity()) && questBuffers == old(questBuffers) && character == old(character) &&
         currentDifficulty == old(currentDifficulty) &&
         createdEvents == old(createdEvents) && dataReadEvents == old(dataReadEvents)) &&
      (ReadGameInfo(mem, memory).Some? && ReadGameInfo(mem, memory).value.playerData.Some? ==>
         PlayerTicked(mem, ReadGameInfo(mem, memory).value))
    }

    /** `ProcessGameData`: one tick. */
    method ProcessGameData(mem: Memory)
      requires Valid()
      modifies this
      ensures Valid()
      ensures memory == old(memory) && nextMemoryTable == old(nextMemoryTable) && readFlags == old(readFlags)
      ensures GameDataProcessed(mem)
    {
      var gameInfo := ReadGameInfo(mem, memory);
      if gameInfo.None? {
        wasInTitleScreen := true;
        return;
      }
      if gameInfo.value.playerData.None? {
        return;
      }
      ProcessPlayer(mem, gameInfo.value);
    }

    /** One iteration of `RunReadOperation`: without a valid process reader
      nothing happens; otherwise a pending table is swapped in, then the tick
      runs on it. */
    method ReadIteration(it: Iteration)
      requires Valid()
      modifies this
      ensures Valid()
      ensures (memory, nextMemoryTable) == TablesAfter(old(memory), old(nextMemoryTable), [it])
      ensures readFlags == old(readFlags)
      ensures it.process.None? ==>
                Identity() == old(Identity()) && questBuffers == old(questBuffers) && character == old(character) &&
                currentDifficulty == old(currentDifficulty) &&
                createdEvents == old(createdEvents) && dataReadEvents == old(dataReadEvents)
      ensures it.process.Some? ==> GameDataProcessed(it.process.value)
    {
      // A table requested since the previous iteration becomes pending.
      if it.requestedTable.Some? {
        SetD2Version(it.requestedTable.value);
      }
      // Without a process reader the iteration ends here.
      if it.process.None? {
        assert [it][1..] == [];
        return;
      }
      // Swap in the pending table, if any.
      if nextMemoryTable.Some? {
        memory := nextMemoryTable.value;
        nextMemoryTable := None;
      }
      ProcessGameData(it.process.value);
      assert [it][1..] == [];
    }

    /** `RunReadOperation` over a finite run of iterations. */
    method RunReadOperation(iterations: seq<Iteration>)
      requires Valid()
      modifies this
      ensures Valid()
      ensures (memory, nextMemoryTable) == TablesAfter(old(memory), old(nextMemoryTable), iterations)
    {
      ghost var memory0, pending0 := memory, nextMemoryTable;
      for i := 0 to |iterations|
        invariant Valid()
        invariant (memory, nextMemoryTable) == TablesAfter(memory0, pending0, iterations[..i])
      {
        ghost var before := (memory, nextMemoryTable);
        ReadIteration(iterations[i]);
        TablesAfterAppend(memory0, pending0, iterations[..i], iterations[i]);
        assert iterations[..i + 1] == iterations[..i] + [iterations[i]];
      }
      assert iterations[..|iterations|] == iterations;
    }
  }

  lemma {:induction false} TablesAfterAppend(memory: MemoryTable, pending: Option<MemoryTable>, iterations: seq<Iteration>, it: Iteration)
    ensures var (m, p) := TablesAfter(memory, pending, iterations);
            TablesAfter(memory, pending, iterations + [it]) == TablesAfter(m, p, [it])
    decreases |iterations|
  {
    if iterations == [] {
      assert iterations + [it] == [it];
    } else {
      assert (iterations + [it])[1..] == iterations[1..] + [it];
      var i0 := iterations[0];
      var requested := if i0.requestedTable.Some? then i0.requestedTable else pending;
      if i0.process.None? {
        TablesAfterAppend(memory, requested, iterations[1..], it);
      } else {
        TablesAfterAppend(if requested.Some? then requested.value else memory, None, iterations[1..], it);
      }
    }
  }
}
