/** The target process's memory, as the reader sees it: an abstract map from
    address to value. Scalars are kept per width; fixed-layout records appear
    already decoded (the struct decoder is not part of this model), so a record
    read at an address succeeds exactly when the map holds a record there. A
    read that finds nothing stands for a `ProcessMemoryReadException`. */
module ProcessMemory {
  import opened Bits
  import opened Wrappers

  type Address = int
  type byte = x: int | 0 <= x < 0x100

  /** Where an address is taken from: as is, or from the module's load base. */
  datatype AddressingMode = Absolute | Relative

  /** `D2World`: the mask and base of the array of game records. */
  datatype World = World(gameMask: uint32, gameBuffer: Address)

  /** The first unit list of a game: one bucket per player slot. */
  type UnitBucket = s: seq<Address> | |s| == 128 witness seq(128, i => 0)

  /** `D2Game`: the client pointer, the player unit list and the difficulty. */
  datatype Game = Game(client: Address, playerUnits: UnitBucket, difficulty: byte)

  /** `D2Client`: the unit type (0 for a player) and the unit id. */
  datatype Client = Client(unitType: int, unitId: uint32)

  /** `D2Unit` for the player, with the two stat values the character tracker
      asks for (`None` when the stat list has no such entry). */
  datatype Unit = Unit(unitData: Address, mode: int, level: Option<int>, experience: Option<int>)

  /** `D2PlayerData`: the player name and one quest array pointer per
      difficulty. */
  datatype PlayerData = PlayerData(playerName: string, quests: seq<Address>)

  /** `D2QuestArray`: where the quest bytes lie and how many there are. */
  datatype QuestArray = QuestArray(buffer: Address, length: nat)

  /** Body location of an item: `None` for items that are not worn. */
  datatype BodyLocation =
    | NoLocation | Head | Amulet | BodyArmor | PrimaryRight | PrimaryLeft
    | RingRight | RingLeft | Belt | Boots | Gloves | SecondaryRight | SecondaryLeft

  /** One unit of the player's inventory as the inventory reader yields it:
      its class (`eClass`), body location, whether its stat list could be read,
      its full name, its magical property strings and the classes of the items
      socketed into it. */
  datatype InventoryItem = InventoryItem(
    itemClass: int,
    bodyLoc: BodyLocation,
    hasStats: bool,
    fullName: string,
    magicalStrings: seq<string>,
    socketedClasses: seq<int>)

  datatype Memory = Memory(
    moduleBase: Address,
    dwords: map<Address, uint32>,
    bytes: map<Address, byte>,
    worlds: map<Address, World>,
    games: map<Address, Game>,
    clients: map<Address, Client>,
    units: map<Address, Unit>,
    players: map<Address, PlayerData>,
    questArrays: map<Address, QuestArray>,
    buffers: map<Address, seq<byte>>,
    inventory: seq<InventoryItem>)

  function Resolve(mem: Memory, address: Address, mode: AddressingMode): Address {
    if mode == Relative then mem.moduleBase + address else address
  }

  /** `ReadUInt32` and `ReadAddress32`: a 32-bit value. */
  function ReadDword(mem: Memory, address: Address, mode: AddressingMode): Option<uint32> {
    var a := Resolve(mem, address, mode);
    if a in mem.dwords then Some(mem.dwords[a]) else None
  }

  function ReadByte(mem: Memory, address: Address, mode: AddressingMode): Option<byte> {
    var a := Resolve(mem, address, mode);
    if a in mem.bytes then Some(mem.bytes[a]) else None
  }

  function ReadWorld(mem: Memory, a: Address): Option<World> {
    if a in mem.worlds then Some(mem.worlds[a]) else None
  }

  function ReadGame(mem: Memory, a: Address): Option<Game> {
    if a in mem.games then Some(mem.games[a]) else None
  }

  function ReadClient(mem: Memory, a: Address): Option<Client> {
    if a in mem.clients then Some(mem.clients[a]) else None
  }

  function ReadUnit(mem: Memory, a: Address): Option<Unit> {
    if a in mem.units then Some(mem.units[a]) else None
  }

  function ReadPlayerData(mem: Memory, a: Address): Option<PlayerData> {
    if a in mem.players then Some(mem.players[a]) else None
  }

  function ReadQuestArray(mem: Memory, a: Address): Option<QuestArray> {
    if a in mem.questArrays then Some(mem.questArrays[a]) else None
  }

  /** `Read(address, length)`: a raw byte range, readable when it lies inside
      one mapped buffer. */
  function ReadBytes(mem: Memory, a: Address, length: nat): (r: Option<seq<byte>>)
    ensures r.Some? ==> |r.value| == length
  {
    if a in mem.buffers && length <= |mem.buffers[a]| then Some(mem.buffers[a][..length]) else None
  }
}
