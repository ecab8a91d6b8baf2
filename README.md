# DiabloInterface core, modelled in Dafny

DiabloInterface shows a Diablo II player's character on screen. Its
data reader polls the game's memory. On each tick it finds the active game and the player, and tracks
which character is being played: new, continued or reset under the same
name. It then decodes the quest status buffers and reads the area and the difficulty,
the equipped item strings and the inventory item ids. All of this is published
as one "data read" event. Three backend services listen to those events:

- the statistics service (SS), with four endpoint handlers (equipped items,
  skills, gold, attributes) behind an enabled switch;
- the snapshot service (NST), with three handlers and no switch;
- the inventory service (D2ID), which posts the inventory state whenever the
  equipped items or the charms change.

Each handler compares the event with what it stored last time. The
handlers that see a change queue a packet; the queue is then sent first-in
first-out.

The model, one module per concern:

| file | module | what it holds |
|---|---|---|
| utility.dfy | `Utility` | `Clamp` |
| bits.dfy | `Bits` | 32-bit unsigned values, `&`, signed wrap-around |
| text.dfy | `DecimalText` | `int.ToString()` and the `value + tag` texts |
| memory.dfy | `ProcessMemory` | the target's memory as an abstract map of typed records |
| resolution.dfy | `GameResolution` | `ReadActiveGameInstance`, `ReadGameInfo` |
| quests.dfy | `QuestDecoding` | quest bytes to 16-bit words, the quest loop |
| identity.dfy | `CharacterIdentity` | the character tracker and the title-screen flag |
| items.dfy | `ItemReading` | equipped item strings, inventory item ids |
| datareader.dfy | `D2Reader` | flag-gated reads, the tick, the polling loop and its table swap |
| inventory.dfy | `BackendData` | the event payload, the filters, the comparisons the services share |
| ssbackend.dfy | `SSBackend` | `SSEndpoint`, its four handlers, `SSPacket`, the service |
| nstbackend.dfy | `NSTBackend` | `NSTEndpoint`, its three handlers, `NSTPacket`, the service |
| d2idbackend.dfy | `D2IDBackend` | `InventoryState`, `SkillState`, the service |

Code that works by updating objects is modelled as classes: the reader, every handler
and endpoint, the services and the D2ID state objects. Their methods are proved
against pure step functions (`GoldStep`, `EquippedStep`, `SkillsStep`,
`AttributesStep`, `CharacterIdentity.Tick`, `TablesAfter`). The properties are
then proved as lemmas about those functions. Computations without
state are functions with lemmas: address arithmetic, quest decoding and `Clamp`.

`ReadActiveGameInstance` (src/D2Reader/D2DataReader.cs:314-320) rejects only a game pointer that is negative as a
signed 32-bit value. A null game pointer is not rejected: the game record at
address 0 is read. So "no game" then follows only when nothing is
mapped there (`NullGamePointerYieldsNoGameInfo`).

## Model

| member | source | states |
|---|---|---|
| Utility.Clamp | src/DiabloInterface.Core/Utility.cs:6-15 | below `min` gives `min`; otherwise above `max` gives `max`; otherwise the value itself |
| Utility.ClampInRange | src/DiabloInterface.Core/Utility.cs:6-15 | for `min <= max` the result lies in `[min, max]` |
| Utility.ClampIdempotent | src/DiabloInterface.Core/Utility.cs:6-15 | for `min <= max`, clamping twice is clamping once |
| Utility.ClampCrossedBoundsNotIdempotent | src/DiabloInterface.Core/Utility.cs:8-12 | with crossed bounds (`min > max`) the `min` test wins, so for every value a second clamp changes the result |
| Utility.ClampMonotonic | src/DiabloInterface.Core/Utility.cs:6-15 | for `min <= max`, a larger value never clamps to a smaller result |
| Bits.BitAndBoundedByMask | src/D2Reader/D2DataReader.cs:311 | `x & m <= m` |
| Bits.BitAndBounded | src/D2Reader/D2DataReader.cs:311 | `x & m` is at most `x` and at most `m` |
| Bits.BitAndLowMask | src/D2Reader/D2DataReader.cs:311 | masking with `2^k - 1` is the remainder modulo `2^k` |
| Bits.Wrap32 | src/DiabloInterface.Business/Services/SSBackendService.cs:215-218 | unchecked `int` arithmetic: a value in the signed 32-bit range is kept, and the result is always congruent to the exact value modulo 2^32 |
| Bits.AsSigned32 | src/D2Reader/D2DataReader.cs:316-317 | the `(int)` reinterpretation: negative exactly when the pointer is at least 2^31, and congruent to it modulo 2^32 |
| GameResolution.GameIndex | src/D2Reader/D2DataReader.cs:311 | the index is at most the game mask and at most the game id |
| GameResolution.GameOffset | src/D2Reader/D2DataReader.cs:312 | `index * 0x0C + 0x08` when it fits in 32 bits, and congruent to it modulo 2^32 always |
| GameResolution.PlayerSlot | src/D2Reader/D2DataReader.cs:285 | `unitId & 0x7F` is the unit id modulo 128, a valid bucket index |
| GameResolution.ReadActiveGameInstance | src/D2Reader/D2DataReader.cs:301-321 | a null world pointer gives no game; a found game was read through the pointer in the game-array slot the game id selects, and that pointer is not negative; conversely, when every read of that chain succeeds and the slot's pointer is not negative, the game it points to is found |
| GameResolution.ReadGameInfo | src/D2Reader/D2DataReader.cs:272-299 | no game or a null client gives no game info; found game info has a player-type client, a non-null unit taken from the client's bucket, and player data exactly when the unit's data pointer is not null; conversely, a found game whose client, bucket unit and (non-null) player data can all be read yields exactly those records |
| GameResolution.NegativeGamePointerYieldsNoGame | src/D2Reader/D2DataReader.cs:314-318 | every game pointer that is negative as a signed 32-bit value (0x80000000 and up) gives no game and no game info |
| GameResolution.NullGamePointerYieldsNoGameInfo | src/D2Reader/D2DataReader.cs:314-320 | a null game pointer is read, so there is no game info only while address 0 is unmapped |
| GameResolution.GameSlotWithinArray | src/D2Reader/D2DataReader.cs:311-313 | the slot read lies inside the game array's header and `GameMask + 1` records |
| QuestDecoding.DecodeQuestWords | src/D2Reader/D2DataReader.cs:385-387 | `(n + 1) / 2` words, word `k` being byte `2k` plus 256 times byte `2k+1` (zero past the end) |
| QuestDecoding.DecodeEncode | src/D2Reader/D2DataReader.cs:385-387 | decoding the little-endian bytes of any words gives the words back |
| QuestDecoding.EncodeDecode | src/D2Reader/D2DataReader.cs:385-387 | re-encoding decoded bytes gives the bytes back, plus one zero byte when their number is odd |
| QuestDecoding.ScanQuestsContents | src/D2Reader/D2DataReader.cs:377-393 | the buffers are keyed by the indices of non-null quest pointers, each holding its decoded bytes; all of them are there when every read succeeded |
| QuestDecoding.ScanQuestsStopsAtFailure | src/D2Reader/D2DataReader.cs:377-393 | once a read fails, later pointers add nothing |
| QuestDecoding.ScanQuestsOk | src/D2Reader/D2DataReader.cs:377-393 | the loop completes exactly when every non-null quest pointer can be read |
| CharacterIdentity.GetCurrentCharacter | src/D2Reader/D2DataReader.cs:466-515 | a known name without a reset keeps its character; an unknown name or a reset creates a fresh one, which is active and announced exactly when it is at level 1 with no experience; the title-screen flag is cleared; the tracker stays valid |
| CharacterIdentity.StoreStats | src/D2Reader/D2DataReader.cs:358-366 | the stat parser leaves the tracked names and the character's identity alone, and stores the level and experience just read |
| CharacterIdentity.EnterTitleScreen | src/D2Reader/D2DataReader.cs:326-331 | no game info sets the title-screen flag and changes no character |
| CharacterIdentity.RunValid | src/D2Reader/D2DataReader.cs:466-515 | any run of ticks keeps the tracker valid |
| CharacterIdentity.ActiveIsLastCreated | src/D2Reader/D2DataReader.cs:496-508 | the active character is the one most recently announced as created; a run without an announcement leaves it alone |
| CharacterIdentity.CreatedAreFresh | src/D2Reader/D2DataReader.cs:494-508 | every announced character is brand new, with a serial never handed out before, in increasing order |
| CharacterIdentity.ResolvedWithoutEventKeepsAutosplit | src/D2Reader/D2DataReader.cs:461-464 | a character resolved without an announcement is autosplit only if it already was |
| CharacterIdentity.RunAppend | src/D2Reader/D2DataReader.cs:237-270 | running `a + b` is running `a`, then `b` |
| CharacterIdentity.CreateProgressReset | src/D2Reader/D2DataReader.cs:477-486 | level 1, then level 2 with 500 experience, then level 1 with none under one name: two announcements, and the second character is active |
| CharacterIdentity.TitleScreenThenNewCharacter | src/D2Reader/D2DataReader.cs:326-331 | title-screen ticks followed by a new level-1 character: one announcement, and that character is active |
| ItemReading.BuildItemText | src/D2Reader/D2DataReader.cs:425-435 | the string builder loop yields the full name, a newline, then each magical string indented and ended by a newline |
| ItemReading.ReadEquippedItemStrings | src/D2Reader/D2DataReader.cs:414-445 | one string per body location that some readable equipped item occupies, being the first such item's text; never one for `None` |
| ItemReading.OccupiedMembership | src/D2Reader/D2DataReader.cs:437-441 | a location is taken exactly when some contributing item sits there |
| ItemReading.EquippedStringsUnique | src/D2Reader/D2DataReader.cs:414-445 | the "first item per location" promise determines the dictionary completely |
| ItemReading.ReadInventoryItemIds | src/D2Reader/D2DataReader.cs:453-459 | the ids of the enumerated items in order, then those of their socketed items |
| ItemReading.ItemIdsMembership | src/D2Reader/D2DataReader.cs:453-459 | an id is listed exactly when it is the class of an enumerated item or of an item socketed into one |
| ItemReading.ItemIdsLength | src/D2Reader/D2DataReader.cs:453-459 | one id per item plus one per socketed item |
| D2Reader.ProcessCurrentArea | src/D2Reader/D2DataReader.cs:395-400 | the area byte when the flag is on, -1 when it is off |
| D2Reader.ProcessCurrentDifficulty | src/D2Reader/D2DataReader.cs:402-406 | the game's difficulty when the flag is on, 0 when it is off |
| D2Reader.ProcessInventoryItemIds | src/D2Reader/D2DataReader.cs:447-451 | the item ids when the flag is on, the empty list when it is off |
| D2Reader.ProcessEquippedItemStrings | src/D2Reader/D2DataReader.cs:408-412 | the equipped strings when the flag is on, the empty dictionary when it is off |
| D2Reader.NoProcessNoSwap | src/D2Reader/D2DataReader.cs:239-253 | without a valid process reader the table in effect never changes |
| D2Reader.TablesAfterUseLastRequested | src/D2Reader/D2DataReader.cs:239-252 | after any run, the pending table if there is one, else the table in effect, is the table requested last (or the starting one) |
| D2Reader.LastRequestTakesEffect | src/D2Reader/D2DataReader.cs:248-252 | after a run whose last iteration had a process, nothing is pending and the table in effect is the one requested last (or the starting one) |
| D2Reader.TablesAfterAppend | src/D2Reader/D2DataReader.cs:237-270 | the tables after one more iteration follow from the tables before it |
| D2Reader.DataReader.SetD2Version | src/D2Reader/D2DataReader.cs:174-177 | the new table only becomes pending |
| D2Reader.DataReader.CurrentQuestBuffer | src/D2Reader/D2DataReader.cs:133-145 | the buffer of the current difficulty when one was read, none otherwise |
| D2Reader.DataReader.IsAutosplitCharacter | src/D2Reader/D2DataReader.cs:461-464 | true exactly when the character is the active one |
| D2Reader.DataReader.GetCurrentCharacter | src/D2Reader/D2DataReader.cs:466-515 | the reader's fields change as the tracker step says, and a "character created" event is published exactly when it announces one |
| D2Reader.DataReader.ReadQuestBuffers | src/D2Reader/D2DataReader.cs:377-393 | the `for` loop leaves the buffers the quest scan describes |
| D2Reader.DataReader.ProcessCharacterData | src/D2Reader/D2DataReader.cs:358-366 | the character is resolved as one tracker tick and then given the stats read |
| D2Reader.DataReader.ProcessQuestBuffers | src/D2Reader/D2DataReader.cs:368-375 | the buffers are cleared, and read only when the flag is on |
| D2Reader.DataReader.ProcessPlayer | src/D2Reader/D2DataReader.cs:333-349 | a tick with a player updates the tracker, quests and difficulty, and publishes one event with the character, the strings, the area, the ids, the autosplit flag and the buffers |
| D2Reader.DataReader.ProcessGameData | src/D2Reader/D2DataReader.cs:323-350 | no game info sets the title-screen flag and publishes nothing; a missing player record aborts the tick; otherwise the tick above |
| D2Reader.DataReader.ReadIteration | src/D2Reader/D2DataReader.cs:239-268 | without a process only a request is recorded and the tracker, buffers and event logs stay as they were; with one, the pending table is swapped in and the tracker, buffers, difficulty and both event logs change exactly as one `ProcessGameData` tick on that table says |
| D2Reader.DataReader.RunReadOperation | src/D2Reader/D2DataReader.cs:237-270 | after any finite run the table in effect and the pending one are those `TablesAfter` describes |
| DecimalText.DecimalStringInjective | src/DiabloInterface.Business/Services/SSBackendService.cs:92-126 | distinct integers have distinct decimal text |
| DecimalText.TaggedInjective | src/DiabloInterface.Business/Services/SSBackendService.cs:92-126 | a value and an upper-case tag can be read back from their concatenation |
| BackendData.HashEquipped | src/DiabloInterface.Business/Services/SSBackendService.cs:284-289 | the `foreach` yields the set of `location + asString()` texts of the items |
| BackendData.CollectSkillNames | src/DiabloInterface.Business/Services/NSTBackendService.cs:255-259 | the `foreach` yields exactly the skill names |
| BackendData.CollectSkillLevels | src/DiabloInterface.Business/Services/NSTBackendService.cs:260-264 | the `foreach` yields exactly the set of levels |
| BackendData.CollectSkillStrings | src/DiabloInterface.Business/Services/SSBackendService.cs:368-372 | the `foreach` yields the set of `name + level` texts |
| BackendData.SymmetricExceptNonEmpty | src/DiabloInterface.Business/Services/SSBackendService.cs:291-292 | the symmetric difference has elements exactly when the two sets differ |
| BackendData.GoldDelta | src/DiabloInterface.Business/Services/SSBackendService.cs:218 | the unchecked difference added back to the old total gives the new total; it is zero exactly when the totals are equal |
| BackendData.DeltaRestores | src/DiabloInterface.Business/Services/SSBackendService.cs:215-219 | adding the wrapped difference back to the old total gives the new one, wrap-around included |
| BackendData.GoldStepSpec | src/DiabloInterface.Business/Services/SSBackendService.cs:198-222 | a first event or another character re-initialises with a zero delta and sends nothing; a changed total stores it with its delta and requires a send; an unchanged total changes nothing |
| BackendData.GoldDeltaLeadsToTotal | src/DiabloInterface.Business/Services/SSBackendService.cs:215-221 | when a send is required, the delta sent leads from the previous total to the new one |
| BackendData.GoldStepQuiet | src/DiabloInterface.Business/Services/SSBackendService.cs:206-222 | the same character seen twice in a row sends nothing the second time |
| BackendData.EquippedStepSpec | src/DiabloInterface.Business/Services/SSBackendService.cs:275-315 | with consistent stored hashes, a send is required exactly when the equipped items' texts or the set of charm keys changed |
| BackendData.EquippedStepQuiet | src/DiabloInterface.Business/Services/SSBackendService.cs:275-315 | the same inventory seen twice in a row sends nothing the second time |
| BackendData.NewCharmNoticed | src/DiabloInterface.Business/Services/SSBackendService.cs:300-312 | a new charm in the inventory always requires a send |
| BackendData.SkillCountsSignalChange | src/DiabloInterface.Business/Services/NSTBackendService.cs:266-272 | the two counts tested are non-zero exactly when the skill names or the set of levels differ |
| BackendData.SkillNameChangeNoticed | src/DiabloInterface.Business/Services/NSTBackendService.cs:266-272 | a skill learned or forgotten is noticed by the two-set comparison |
| BackendData.SkillPointUnnoticed | src/DiabloInterface.Business/Services/NSTBackendService.cs:252-277 | the two-set comparison misses a level that rises to a value another skill has while a third skill keeps the old one |
| BackendData.SwappedLevelsUnnoticed | src/DiabloInterface.Business/Services/NSTBackendService.cs:252-277 | the two-set comparison misses two skills swapping their levels |
| SSBackend.SSEndpoint.SetPath | src/DiabloInterface.Business/Services/SSBackendService.cs:26-29 | the path becomes the one given |
| SSBackend.SSEndpoint.AppendPath | src/DiabloInterface.Business/Services/SSBackendService.cs:31-34 | the path is extended, and so is the address |
| SSBackend.SSEndpoint.GetURI | src/DiabloInterface.Business/Services/SSBackendService.cs:36-39 | `http://localhost:8080` followed by the path |
| SSBackend.GetURIDeterminesPath | src/DiabloInterface.Business/Services/SSBackendService.cs:36-39 | two endpoints with the same address have the same path |
| SSBackend.AttributeValues | src/DiabloInterface.Business/Services/SSBackendService.cs:130-142 | the twelve tracked attributes of the character, under their twelve keys |
| SSBackend.AttributeStringsInjective | src/DiabloInterface.Business/Services/SSBackendService.cs:92-127 | two attribute dictionaries have the same twelve `value + tag` texts exactly when they are equal |
| SSBackend.InitialAttributesValid | src/DiabloInterface.Business/Services/SSBackendService.cs:64-76 | the twelve attributes start at zero |
| SSBackend.AttributesStepSpec | src/DiabloInterface.Business/Services/SSBackendService.cs:89-145 | a send is required exactly when one of the twelve attributes changed, and then the values are replaced by the character's; otherwise they are kept |
| SSBackend.AttributesStepQuiet | src/DiabloInterface.Business/Services/SSBackendService.cs:89-145 | the same attributes seen twice in a row send nothing the second time |
| SSBackend.SkillTextsCollide | src/DiabloInterface.Business/Services/SSBackendService.cs:368-375 | the `name + level` texts can hide a change: adding skill "A" at level 11 beside "A1" at level 1 sends nothing |
| SSBackend.AttributesEndpointHandler.ProcessGameState | src/DiabloInterface.Business/Services/SSBackendService.cs:89-145 | the handler's new fields are the attributes step of its old ones |
| SSBackend.AttributesEndpointHandler.UpdateURI | src/DiabloInterface.Business/Services/SSBackendService.cs:84-87 | the path becomes `/api/v1/snapshots/attributes` |
| SSBackend.GoldEndpointHandler.ProcessInitialState | src/DiabloInterface.Business/Services/SSBackendService.cs:198-204 | the character's total is stored with a zero delta, under the character's name |
| SSBackend.GoldEndpointHandler.ProcessGameState | src/DiabloInterface.Business/Services/SSBackendService.cs:206-222 | the handler's new fields are the gold step of its old ones |
| SSBackend.GoldEndpointHandler.UpdateURI | src/DiabloInterface.Business/Services/SSBackendService.cs:193-196 | the path becomes `/api/v1/snapshots/gold` |
| SSBackend.EquippedEndpointHandler.ProcessGameState | src/DiabloInterface.Business/Services/SSBackendService.cs:275-315 | the handler's new fields are the equipped step of its old ones |
| SSBackend.EquippedEndpointHandler.CompareEquipment | src/DiabloInterface.Business/Services/SSBackendService.cs:279-298 | the equipped items and their texts are stored, and a changed set of texts requires a send |
| SSBackend.EquippedEndpointHandler.CompareCharms | src/DiabloInterface.Business/Services/SSBackendService.cs:300-314 | the charms and their keys are stored, and a changed set of keys requires a send |
| SSBackend.EquippedEndpointHandler.UpdateURI | src/DiabloInterface.Business/Services/SSBackendService.cs:270-273 | the path becomes `/api/v1/snapshots/items` |
| SSBackend.SkillsEndpointHandler.ProcessGameState | src/DiabloInterface.Business/Services/SSBackendService.cs:364-382 | the handler's new fields are the skills step of its old ones |
| SSBackend.SkillsEndpointHandler.UpdateURI | src/DiabloInterface.Business/Services/SSBackendService.cs:359-362 | the path becomes `/api/v1/snapshots/skills` |
| SSBackend.QueuesAppend | src/DiabloInterface.Business/Services/SSBackendService.cs:489-505 | a concatenated queue holds a handler exactly when one of its parts does |
| SSBackend.AppendInOrder | src/DiabloInterface.Business/Services/SSBackendService.cs:491-506 | queueing a later handler after earlier ones keeps the handler order |
| SSBackend.PendingInOrder | src/DiabloInterface.Business/Services/SSBackendService.cs:445-451 | the queue follows the order equipped, skills, gold, attributes, holds at most four entries, and is empty when the service is disabled |
| SSBackend.PendingQueues | src/DiabloInterface.Business/Services/SSBackendService.cs:491-505 | the queue holds a handler exactly when the service is enabled and that handler requires a send |
| SSBackend.PendingQuiet | src/DiabloInterface.Business/Services/SSBackendService.cs:487-516 | the same event handled twice in a row queues nothing the second time |
| SSBackend.SSBackendService.SettingsChanged | src/DiabloInterface.Business/Services/SSBackendService.cs:469-485 | the enabled switch becomes the setting's value |
| SSBackend.SSBackendService.OnDataRead | src/DiabloInterface.Business/Services/SSBackendService.cs:487-516 | every handler takes its step and its path, and what is sent is the queue the handlers' new states call for, in handler order |
| SSBackend.SSBackendService.VisitEquipped | src/DiabloInterface.Business/Services/SSBackendService.cs:493-505 | one pass of the `foreach` for the equipped handler |
| SSBackend.SSBackendService.VisitSkills | src/DiabloInterface.Business/Services/SSBackendService.cs:493-505 | one pass of the `foreach` for the skills handler |
| SSBackend.SSBackendService.VisitGold | src/DiabloInterface.Business/Services/SSBackendService.cs:493-505 | one pass of the `foreach` for the gold handler |
| SSBackend.SSBackendService.VisitAttributes | src/DiabloInterface.Business/Services/SSBackendService.cs:493-505 | one pass of the `foreach` for the attributes handler |
| SSBackend.SSBackendService.SendQueued | src/DiabloInterface.Business/Services/SSBackendService.cs:508-515 | the `while` sends the whole queue, first in first out |
| NSTBackend.NSTEndpoint.SetPath | src/DiabloInterface.Business/Services/NSTBackendService.cs:26-29 | the path becomes the one given |
| NSTBackend.NSTEndpoint.AppendPath | src/DiabloInterface.Business/Services/NSTBackendService.cs:31-34 | the path is extended, and so is the address |
| NSTBackend.NSTEndpoint.GetURI | src/DiabloInterface.Business/Services/NSTBackendService.cs:36-39 | `http://localhost:8080` followed by the path |
| NSTBackend.SkillsStepQuiet | src/DiabloInterface.Business/Services/NSTBackendService.cs:252-277 | the same skills seen twice in a row send nothing the second time |
| NSTBackend.GoldEndpointHandler.ProcessInitialState | src/DiabloInterface.Business/Services/NSTBackendService.cs:84-90 | the character's total is stored with a zero delta, under the character's name |
| NSTBackend.GoldEndpointHandler.ProcessGameState | src/DiabloInterface.Business/Services/NSTBackendService.cs:92-108 | the handler's new fields are the gold step of its old ones |
| NSTBackend.GoldEndpointHandler.UpdateURI | src/DiabloInterface.Business/Services/NSTBackendService.cs:79-82 | the path becomes `/snapshots/gold` |
| NSTBackend.EquippedEndpointHandler.ProcessGameState | src/DiabloInterface.Business/Services/NSTBackendService.cs:161-201 | the handler's new fields are the equipped step of its old ones |
| NSTBackend.EquippedEndpointHandler.CompareEquipment | src/DiabloInterface.Business/Services/NSTBackendService.cs:161-201 | the equipped items and their texts are stored, and a changed set of texts requires a send |
| NSTBackend.EquippedEndpointHandler.CompareCharms | src/DiabloInterface.Business/Services/NSTBackendService.cs:161-201 | the charms and their keys are stored, and a changed set of keys requires a send |
| NSTBackend.SkillsEndpointHandler.ProcessGameState | src/DiabloInterface.Business/Services/NSTBackendService.cs:252-277 | the handler's new fields are the two-set skills step of its old ones |
| NSTBackend.SkillsEndpointHandler.CompareSkills | src/DiabloInterface.Business/Services/NSTBackendService.cs:255-274 | the skill names and the set of levels are stored, and a change in either requires a send |
| NSTBackend.QueuesAppend | src/DiabloInterface.Business/Services/NSTBackendService.cs:351-367 | a concatenated queue holds a handler exactly when one of its parts does |
| NSTBackend.AppendInOrder | src/DiabloInterface.Business/Services/NSTBackendService.cs:353-368 | queueing a later handler after earlier ones keeps the handler order |
| NSTBackend.PendingInOrder | src/DiabloInterface.Business/Services/NSTBackendService.cs:336-341 | the queue follows the order equipped, skills, gold and holds at most three entries |
| NSTBackend.PendingQueues | src/DiabloInterface.Business/Services/NSTBackendService.cs:353-367 | the queue holds a handler exactly when that handler requires a send; there is no switch |
| NSTBackend.PendingQuiet | src/DiabloInterface.Business/Services/NSTBackendService.cs:349-378 | the same event handled twice in a row queues nothing the second time |
| NSTBackend.NSTBackendService.OnDataRead | src/DiabloInterface.Business/Services/NSTBackendService.cs:349-378 | every handler takes its step and its path, and what is sent is the queue the handlers' new states call for, in handler order |
| NSTBackend.NSTBackendService.SendQueued | src/DiabloInterface.Business/Services/NSTBackendService.cs:370-377 | the `while` sends the whole queue, first in first out |
| D2IDBackend.InventoryURL | src/DiabloInterface.Business/Services/D2IDBackendService.cs:171 | `http://`, the host, then `:8080/snapshots/equipped/test/test` |
| D2IDBackend.InventoryURLDeterminesHost | src/DiabloInterface.Business/Services/D2IDBackendService.cs:171 | different hosts never share an address |
| D2IDBackend.SameVerdictAsEquippedHandler | src/DiabloInterface.Business/Services/D2IDBackendService.cs:86-123 | the inventory check stores the same items and reaches the same verdict as the equipped handlers' step |
| D2IDBackend.QuietSecondRead | src/DiabloInterface.Business/Services/D2IDBackendService.cs:81-162 | handling the same event twice in a row: the second call reports no inventory change and no skill change, and only the first call can have posted |
| D2IDBackend.D2IDBackendService.constructor | src/DiabloInterface.Business/Services/D2IDBackendService.cs:59-74 | the host is `localhost` in a debug build and `d2id.multilurk.tv` otherwise; both state objects start empty |
| D2IDBackend.D2IDBackendService.OnDataRead | src/DiabloInterface.Business/Services/D2IDBackendService.cs:81-162 | the equipped items, charms and skill sets are replaced by the event's; the stored skill levels stay as they were; the inventory state is posted exactly when the item texts or charm keys changed |
| D2IDBackend.D2IDBackendService.InventoryCheck | src/DiabloInterface.Business/Services/D2IDBackendService.cs:86-123 | a change is reported exactly when the item texts or the charm keys differ from the stored ones |
| D2IDBackend.D2IDBackendService.CompareEquipment | src/DiabloInterface.Business/Services/D2IDBackendService.cs:87-106 | the equipped items and their texts are stored; a changed set of texts is a change |
| D2IDBackend.D2IDBackendService.CompareCharms | src/DiabloInterface.Business/Services/D2IDBackendService.cs:108-122 | the charms and their keys are stored; a changed set of keys is a change |
| D2IDBackend.D2IDBackendService.SkillCheck | src/DiabloInterface.Business/Services/D2IDBackendService.cs:125-146 | the skill names and level set are stored, a change in either is reported, and the level dictionary is never written |
| D2IDBackend.D2IDBackendService.ProcessInventoryChange | src/DiabloInterface.Business/Services/D2IDBackendService.cs:166-174 | one post of the current inventory state to the inventory address |

## Left out

- HTTP, the HTTP client's authorisation header, responses and their status codes: sending is modelled as appending to a `sent` or `posts` log.
- JSON serialisation (`asJson`, `JsonConvert.SerializeObject`): a packet or post carries the values serialisation would see, not text.
- `async`/`await`, the event loop and threads: each event is handled to completion before the next one. `SSOnDataRead` and `NSTOnDataRead` drain the queue after every handler ran, and the model follows that order.
- Logging, `Thread.Sleep`, the polling rate, timestamps (`DateTime.Now`) and the debug-build console output.
- `Dispose`, the process-reader lifecycle (`ValidateGameDataReaders`, `InitializeGameDataReaders`) and `ItemSlotAction`: a polling iteration is given either the target's memory or none.
- CharacterIdentity.StoreStats: `ParseStats` is assumed to set the character's `Level` and `Experience` to the `GetStatValue(...) ?? 0` values read at src/D2Reader/D2DataReader.cs:471-472 and to change nothing else of it; the reset rules of the next tick (src/D2Reader/D2DataReader.cs:481-486), and so `CreateProgressReset` and every reset property, rest on that assumption.
- `ParseStats`, `GetStatsMap`, `GetFullItemName`, `GetMagicalStrings`, `GetSocketedItems`, `asString()` and `D2QuestHelper` are not part of this model. Their results are inputs, for example the `rendered` field of an item and the item records of the memory.
- `CompletedQuestCounts`: the quest counts need `D2QuestHelper` and are not recorded.
- `Clamp` is modelled on `int`, not on any `IComparable<T>`.
- Addresses are 32-bit values; a 64-bit `IntPtr` beyond 2^32 is not modelled.
- `int.ToString()` is modelled in the invariant culture.
- `Dictionary` and `OrderedDictionary` enumeration order: the handlers' payloads are maps, and the equipped payload keeps the equipped items and the charms as two maps.
- Snapshot aliasing: the D2ID post and the handlers' packets capture values, so a later change of the stored state cannot reach them. The same holds for the reader's own `DataReadEventArgs`: it shares the live `questBuffers` dictionary, which the next tick clears (src/D2Reader/D2DataReader.cs:370), and the live `Character` object, which the next stat parse updates; the model's `Snapshot` copies both, so a listener that keeps an event sees its values as they were when it was published.
- The handler lists are fixed and unrolled in their list order; the `foreach` over a list of interface objects is not modelled as such.
- Null string fields (an endpoint's unset path, the gold handler's unset name, the skills handler's unset levels) are modelled as `""` or as `None`.
- `#if DEBUG` is modelled as the D2ID constructor's `debug` parameter, and the SS switch's initial value as the SS constructor's parameter.
- The unused D2ID hooks `ProcessCharacterStatChange` and `ProcessCharacterLevelUp` do nothing and are not modelled; `ProcessSkillChange`, which the event handler calls, is modelled as a method that changes nothing.
- `GetUnixTimestamp` is not used by the core and is not modelled.
