/** Locating the active game and the player in the target's memory
    (`ReadActiveGameInstance` and `ReadGameInfo` of the data reader). */
module GameResolution {
  import opened Bits
  import opened Wrappers
  import opened ProcessMemory

  /** The version-dependent addresses the reader needs (a `GameMemoryTable`),
      all module-relative. */
  datatype MemoryTable = MemoryTable(gameId: Address, world: Address, area: Address)

  /** Size of one entry of the game array and size of the array's header. */
  const GameRecordStride: int := 0x0C
  const GameArrayHeader: int := 0x08
  /** Mask applied to a client's unit id to select its unit-list bucket. */
  const PlayerSlotMask: uint32 := 0x7F

  /** `gameId & world.GameMask`. */
  function GameIndex(gameId: uint32, gameMask: uint32): (r: uint32)
    ensures r <= gameMask && r <= gameId
  {
    And32(gameId, gameMask)
  }

  /** `(gameIndex * 0x0C) + 0x08` in unchecked `uint` arithmetic. */
  function GameOffset(gameIndex: uint32): (r: uint32)
    ensures gameIndex * GameRecordStride + GameArrayHeader < TwoTo32 ==>
              r == gameIndex * GameRecordStride + GameArrayHeader
    ensures (r - (gameIndex * GameRecordStride + GameArrayHeader)) % TwoTo32 == 0
  {
    WrapU32(gameIndex * GameRecordStride + GameArrayHeader)
  }

  /** `client.UnitId & 0x7F`: always a valid bucket index, namely the unit id
      modulo 128. */
  function PlayerSlot(unitId: uint32): (r: int)
    ensures 0 <= r <= 127
    ensures r == unitId % 128
  {
    BitAndLowMask(unitId, 7);
    assert Pow2(7) == 128 by {
      assert Pow2(1) == 2 && Pow2(2) == 4 && Pow2(3) == 8 && Pow2(4) == 16;
      assert Pow2(5) == 32 && Pow2(6) == 64;
    }
    And32(unitId, PlayerSlotMask)
  }

  /** What `ReadActiveGameInstance` ends in: `null` (no game this tick), an
      exception from a failed read, or the decoded game. */
  datatype GameLookup = NoGame | ReadFailed | Found(game: Game)

  /** The slot of the game array that holds the active game's pointer. */
  function GameSlotAddress(world: World, gameId: uint32): Address {
    world.gameBuffer + GameOffset(GameIndex(gameId, world.gameMask))
  }

  function ReadActiveGameInstance(mem: Memory, table: MemoryTable): (r: GameLookup)
    // A null world pointer means the game is not loaded.
    ensures ReadDword(mem, table.gameId, Relative).Some? ==>
              ReadDword(mem, table.world, Relative) == Some(0) ==> r == NoGame
    // A game is only ever decoded from a non-negative pointer held in the
    // slot that the game id selects.
    ensures r.Found? ==>
              ReadDword(mem, table.gameId, Relative).Some? &&
              ReadDword(mem, table.world, Relative).Some? &&
              ReadDword(mem, table.world, Relative).value in mem.worlds &&
              var gameId := ReadDword(mem, table.gameId, Relative).value;
              var world := mem.worlds[ReadDword(mem, table.world, Relative).value];
              ReadDword(mem, GameSlotAddress(world, gameId), Absolute).Some? &&
              var pointer := ReadDword(mem, GameSlotAddress(world, gameId), Absolute).value;
              AsSigned32(pointer) >= 0 && pointer in mem.games && r.game == mem.games[pointer]
    // Conversely, when every read along that chain succeeds and the pointer
    // is not negative, the game it points to is found.
    ensures ReadDword(mem, table.gameId, Relative).Some? && ReadDword(mem, table.world, Relative).Some? ==>
              var gameId := ReadDword(mem, table.gameId, Relative).value;
              var worldPointer := ReadDword(mem, table.world, Relative).value;
              worldPointer != 0 && worldPointer in mem.worlds ==>
              var slot := ReadDword(mem, GameSlotAddress(mem.worlds[worldPointer], gameId), Absolute);
              slot.Some? && AsSigned32(slot.value) >= 0 && slot.value in mem.games ==>
              r == Found(mem.games[slot.value])
  {
    match ReadDword(mem, table.gameId, Relative)
    case None => ReadFailed
    case Some(gameId) =>
      match ReadDword(mem, table.world, Relative)
      case None => ReadFailed
      case Some(worldPointer) =>
        if worldPointer == 0 then NoGame
        else
          match ReadWorld(mem, worldPointer)
          case None => ReadFailed
          case Some(world) =>
            match ReadDword(mem, GameSlotAddress(world, gameId), Absolute)
            case None => ReadFailed
            case Some(gamePointer) =>
              // The slot can hold a negative value during transition screens.
              if AsSigned32(gamePointer) < 0 then NoGame
              else
                match ReadGame(mem, gamePointer)
                case None => ReadFailed
                case Some(game) => Found(game)
  }

  /** What `ReadGameInfo` returns when it finds a player. */
  datatype GameInfo = GameInfo(game: Game, player: Unit, playerData: Option<PlayerData>)

  /** `ReadGameInfo`: `null` when there is no game, no client, a client that is
      not a player, no unit in the player's bucket, or a failed read. */
  function ReadGameInfo(mem: Memory, table: MemoryTable): (r: Option<GameInfo>)
    ensures r.Some? ==>
              var game := r.value.game;
              ReadActiveGameInstance(mem, table) == Found(game) &&
              game.client != 0 && game.client in mem.clients &&
              mem.clients[game.client].unitType == 0 &&
              var unitAddress := game.playerUnits[PlayerSlot(mem.clients[game.client].unitId)];
              unitAddress != 0 && unitAddress in mem.units && r.value.player == mem.units[unitAddress] &&
              (r.value.playerData.Some? <==> r.value.player.unitData != 0) &&
              (r.value.playerData.Some? ==> r.value.player.unitData in mem.players &&
                                             r.value.playerData.value == mem.players[r.value.player.unitData])
    ensures !ReadActiveGameInstance(mem, table).Found? ==> r == None
    ensures ReadActiveGameInstance(mem, table).Found? && ReadActiveGameInstance(mem, table).game.client == 0 ==>
              r == None
    // Conversely, a game whose player chain can be read in full yields the
    // player, with its player data exactly when the data pointer is not null.
    ensures ReadActiveGameInstance(mem, table).Found? ==>
              var game := ReadActiveGameInstance(mem, table).game;
              game.client != 0 && game.client in mem.clients && mem.clients[game.client].unitType == 0 ==>
              var unitAddress := game.playerUnits[PlayerSlot(mem.clients[game.client].unitId)];
              unitAddress != 0 && unitAddress in mem.units ==>
              var player := mem.units[unitAddress];
              player.unitData == 0 || player.unitData in mem.players ==>
              r == Some(GameInfo(game, player, if player.unitData == 0 then None else Some(mem.players[player.unitData])))
  {
    match ReadActiveGameInstance(mem, table)
    case NoGame => None
    case ReadFailed => None
    case Found(game) =>
      if game.client == 0 then None
      else
        match ReadClient(mem, game.client)
        case None => None
        case Some(client) =>
          // Only a client of unit type 0 (a player) is followed.
          if client.unitType != 0 then None
          else
            var unitAddress := game.playerUnits[PlayerSlot(client.unitId)];
            if unitAddress == 0 then None
            else
              match ReadUnit(mem, unitAddress)
              case None => None
              case Some(player) =>
                if player.unitData == 0 then Some(GameInfo(game, player, None))
                else
                  match ReadPlayerData(mem, player.unitData)
                  case None => None
                  case Some(playerData) => Some(GameInfo(game, player, Some(playerData)))
  }

  /** A game pointer whose bits are negative as a signed `int` (such as
      0x80000000) yields no game, whatever record the memory holds there. */
  lemma NegativeGamePointerYieldsNoGame(mem: Memory, table: MemoryTable, gameId: uint32, worldPointer: uint32, p: uint32)
    requires ReadDword(mem, table.gameId, Relative) == Some(gameId)
    requires ReadDword(mem, table.world, Relative) == Some(worldPointer) && worldPointer != 0
    requires worldPointer in mem.worlds
    requires ReadDword(mem, GameSlotAddress(mem.worlds[worldPointer], gameId), Absolute) == Some(p)
    requires AsSigned32(p) < 0
    ensures ReadActiveGameInstance(mem, table) == NoGame
    ensures ReadGameInfo(mem, table) == None
  {
  }

  /** A null game pointer is not checked before the game record is read; it
      yields no game as long as nothing is mapped at address 0. */
  lemma NullGamePointerYieldsNoGameInfo(mem: Memory, table: MemoryTable, gameId: uint32, worldPointer: uint32)
    requires ReadDword(mem, table.gameId, Relative) == Some(gameId)
    requires ReadDword(mem, table.world, Relative) == Some(worldPointer) && worldPointer != 0
    requires worldPointer in mem.worlds
    requires ReadDword(mem, GameSlotAddress(mem.worlds[worldPointer], gameId), Absolute) == Some(0)
    requires 0 !in mem.games
    ensures ReadActiveGameInstance(mem, table) == ReadFailed
    ensures ReadGameInfo(mem, table) == None
  {
  }

  /** The game slot lies within the header plus `GameMask + 1` records of the
      game array, whenever those fit in 32 bits. */
  lemma GameSlotWithinArray(world: World, gameId: uint32)
    requires (world.gameMask + 1) * GameRecordStride + GameArrayHeader <= TwoTo32
    ensures world.gameBuffer + GameArrayHeader <= GameSlotAddress(world, gameId)
    ensures GameSlotAddress(world, gameId) + GameRecordStride <=
            world.gameBuffer + GameArrayHeader + (world.gameMask + 1) * GameRecordStride
  {
    var i := GameIndex(gameId, world.gameMask);
    assert i * GameRecordStride <= world.gameMask * GameRecordStride;
  }
}
