/** The Room class of api/src/room.py: four dictionaries updated in place. Each method is proved
    against its operation on RoomState. */
module Room {
  import opened Sequences
  import opened Components
  import opened Coloring
  import opened RoomTables

  lemma ColumnSteps(x: int, y: int, startZ: int, z: int)
    ensures z <= startZ ==> Column(x, y, startZ, z) == []
    ensures startZ <= z ==> Column(x, y, startZ, z + 1) == Column(x, y, startZ, z) + [Cell(x, y, z)]
  {
  }

  lemma SlabSteps(x: int, startY: int, y: int, startZ: int, endZ: int)
    ensures y <= startY ==> Slab(x, startY, y, startZ, endZ) == []
    ensures startY <= y ==>
      Slab(x, startY, y + 1, startZ, endZ) == Slab(x, startY, y, startZ, endZ) + Column(x, y, startZ, endZ)
  {
    hide Column;
  }

  lemma BlocksSteps(startX: int, x: int, startY: int, endY: int, startZ: int, endZ: int)
    ensures x <= startX ==> Blocks(startX, x, startY, endY, startZ, endZ) == []
    ensures startX <= x ==>
      Blocks(startX, x + 1, startY, endY, startZ, endZ) ==
      Blocks(startX, x, startY, endY, startZ, endZ) + Slab(x, startY, endY, startZ, endZ)
  {
    hide Slab;
  }

  /** _get_unit_blocks. */
  method GetUnitBlocks(b: Box) returns (unitBlocks: seq<Cell>)
    ensures unitBlocks == UnitBlocks(b)
  {
    hide Blocks, Slab, Column;
    unitBlocks := [];
    var x := b.startX;
    BlocksSteps(b.startX, x, b.startY, b.endY, b.startZ, b.endZ);
    BlocksSteps(b.startX, b.endX, b.startY, b.endY, b.startZ, b.endZ);
    while x < b.endX
      invariant b.startX <= x && (x <= b.endX || x == b.startX)
      invariant unitBlocks == Blocks(b.startX, x, b.startY, b.endY, b.startZ, b.endZ)
    {
      ghost var slabs := unitBlocks;
      var y := b.startY;
      SlabSteps(x, b.startY, y, b.startZ, b.endZ);
      SlabSteps(x, b.startY, b.endY, b.startZ, b.endZ);
      while y < b.endY
        invariant b.startY <= y && (y <= b.endY || y == b.startY)
        invariant unitBlocks == slabs + Slab(x, b.startY, y, b.startZ, b.endZ)
      {
        ghost var columns := unitBlocks;
        var z := b.startZ;
        ColumnSteps(x, y, b.startZ, z);
        ColumnSteps(x, y, b.startZ, b.endZ);
        while z < b.endZ
          invariant b.startZ <= z && (z <= b.endZ || z == b.startZ)
          invariant unitBlocks == columns + Column(x, y, b.startZ, z)
        {
          ColumnSteps(x, y, b.startZ, z);
          unitBlocks := unitBlocks + [Cell(x, y, z)];
          z := z + 1;
        }
        SlabSteps(x, b.startY, y, b.startZ, b.endZ);
        y := y + 1;
      }
      BlocksSteps(b.startX, x, b.startY, b.endY, b.startZ, b.endZ);
      x := x + 1;
    }
  }

  lemma OwnOneMore(was: map<Cell, string>, front: seq<Cell>, block: Cell, id: string)
    ensures var blocks := front + [block];
      was + (map c | c in blocks :: id) == (was + (map c | c in front :: id))[block := id]
  {
  }

  class Room {
    var order: seq<string>
    var gameState: map<string, Token>
    var idToPositions: map<string, seq<Cell>>
    var positionsToIds: map<Cell, string>
    var iconToTokenIds: map<string, seq<string>>

    ghost function State(): RoomState
      reads this
    {
      RoomState(order, gameState, idToPositions, positionsToIds, iconToTokenIds)
    }

    constructor ()
      ensures State() == EMPTY_ROOM
    {
      order, gameState, idToPositions, positionsToIds, iconToTokenIds := [], map[], map[], map[], map[];
    }

    /** list(room.game_state.values()): what a snapshot and a compaction are made of. */
    method GameStateValues() returns (values: seq<Token>)
      requires forall i :: 0 <= i < |order| ==> order[i] in gameState
      ensures values == Values(State())
    {
      values := [];
      for i := 0 to |order|
        invariant values == Values(State())[..i]
      {
        values := values + [gameState[order[i]]];
      }
    }

    method RemovePositions(tokenId: string)
      modifies this
      ensures State() == RoomTables.RemovePositions(old(State()), tokenId)
    {
      var positions := if tokenId in idToPositions then idToPositions[tokenId] else [];
      ghost var was := positionsToIds;
      for i := 0 to |positions|
        invariant positionsToIds == was - (set c | c in positions[..i])
        invariant order == old(order) && gameState == old(gameState)
        invariant idToPositions == old(idToPositions) && iconToTokenIds == old(iconToTokenIds)
      {
        positionsToIds := positionsToIds - {positions[i]};
        assert positions[..i + 1] == positions[..i] + [positions[i]];
      }
      assert positions[..|positions|] == positions;
      assert State().owner == RoomTables.RemovePositions(old(State()), tokenId).owner;
    }

    method DeleteToken(tokenId: string) returns (raised: bool)
      modifies this
      ensures raised <==> RoomTables.DeleteToken(old(State()), tokenId).Raised?
      ensures !raised ==> State() == RoomTables.DeleteToken(old(State()), tokenId).room
    {
      RemovePositions(tokenId);
      idToPositions := idToPositions - {tokenId};
      var removedToken := if tokenId in gameState then Some(gameState[tokenId]) else None;
      gameState := gameState - {tokenId};
      order := Remove(order, tokenId);
      if removedToken.Some? && removedToken.value.kind.Character? {
        var contentId := ContentId(removedToken.value.contents);
        if contentId !in iconToTokenIds || removedToken.value.id !in iconToTokenIds[contentId] {
          return true;
        }
        iconToTokenIds := iconToTokenIds[contentId := Remove(iconToTokenIds[contentId], removedToken.value.id)];
      }
      return false;
    }

    method IsValidPosition(token: Token) returns (valid: bool)
      ensures valid == ValidPosition(State(), token)
    {
      var blocks := GetUnitBlocks(token.box);
      for i := 0 to |blocks|
        invariant forall k :: 0 <= k < i ==> !Occupied(State(), blocks[k])
      {
        if blocks[i] in positionsToIds && positionsToIds[blocks[i]] != "" {
          assert Occupied(State(), blocks[i]);
          return false;
        }
      }
      return true;
    }

    /** The tail of create_or_update_token. */
    method Put(token: Token)
      modifies this
      ensures State() == PutToken(old(State()), token)
    {
      hide UnitBlocks;
      var blocks := GetUnitBlocks(token.box);
      idToPositions := idToPositions[token.id := blocks];
      ghost var was := positionsToIds;
      for i := 0 to |blocks|
        invariant positionsToIds == was + (map c | c in blocks[..i] :: token.id)
        invariant order == old(order) && gameState == old(gameState)
        invariant idToPositions == old(idToPositions)[token.id := blocks] && iconToTokenIds == old(iconToTokenIds)
      {
        OwnOneMore(was, blocks[..i], blocks[i], token.id);
        assert blocks[..i + 1] == blocks[..i] + [blocks[i]];
        positionsToIds := positionsToIds[blocks[i] := token.id];
      }
      assert blocks[..|blocks|] == blocks;
      if token.id !in gameState {
        order := order + [token.id];
      }
      gameState := gameState[token.id := token];
      assert State().owner == PutToken(old(State()), token).owner;
    }

    /** The tokens listed under the icon are collected behind the new one and coloured together;
        a listed id with no token raises. */
    method ColorWithIcon(token: Token, contentId: string) returns (raised: bool, colored: Token)
      requires contentId in iconToTokenIds
      modifies this
      ensures raised <==> !AllLive(old(State()), old(iconToTokenIds[contentId]))
      ensures !raised ==>
        var ids := old(iconToTokenIds[contentId]);
        var painted := AssignColors([token] + Pick(old(State()), ids));
        && colored == painted[0]
        && State() == old(State()).(icons := old(iconToTokenIds)[contentId := ids + [token.id]],
                                    tokens := Paint(old(gameState), ids, painted[1..]))
    {
      hide AssignColors;
      colored := token;
      var tokenIds := iconToTokenIds[contentId];
      ghost var s := State();
      var tokensWithIcon := [token];
      for i := 0 to |tokenIds|
        invariant AllLive(s, tokenIds[..i])
        invariant tokensWithIcon == [token] + Pick(s, tokenIds[..i])
      {
        if tokenIds[i] !in gameState {
          return true, token;
        }
        tokensWithIcon := tokensWithIcon + [gameState[tokenIds[i]]];
        assert Pick(s, tokenIds[..i + 1]) == Pick(s, tokenIds[..i]) + [s.tokens[tokenIds[i]]];
      }
      assert tokenIds[..|tokenIds|] == tokenIds;
      iconToTokenIds := iconToTokenIds[contentId := tokenIds + [token.id]];
      var cells := new Token[|tokensWithIcon|](i requires 0 <= i < |tokensWithIcon| => tokensWithIcon[i]);
      assert cells[..] == tokensWithIcon;
      AssignColorsInPlace(cells);
      assert cells[..] == AssignColors([token] + Pick(s, tokenIds));
      WriteBack(tokenIds, cells);
      return false, cells[0];
    }

    /** In the source the listed tokens are the objects that were coloured; here they are put back
        under their ids. */
    method WriteBack(tokenIds: seq<string>, cells: array<Token>)
      requires cells.Length == |tokenIds| + 1
      modifies this
      ensures State() == old(State()).(tokens := Paint(old(gameState), tokenIds, cells[..][1..]))
    {
      ghost var painted := cells[..][1..];
      for i := 0 to |tokenIds|
        invariant State() == old(State()).(tokens := Paint(old(gameState), tokenIds[..i], painted[..i]))
      {
        gameState := gameState[tokenIds[i] := cells[i + 1]];
        assert tokenIds[..i + 1][..i] == tokenIds[..i];
        assert painted[..i + 1][..i] == painted[..i];
        assert cells[i + 1] == cells[..][1..][i];
      }
      assert tokenIds[..|tokenIds|] == tokenIds;
      assert painted[..|tokenIds|] == painted;
    }

    method CreateOrUpdateToken(token: Token) returns (raised: bool)
      modifies this
      ensures raised <==> RoomTables.CreateOrUpdateToken(old(State()), token).Raised?
      ensures !raised ==> State() == RoomTables.CreateOrUpdateToken(old(State()), token).room
    {
      hide AssignColors, PutToken, UnitBlocks, Paint;
      raised := false;
      var valid := IsValidPosition(token);
      if valid {
        var placed := token;
        if token.id in gameState {
          RemovePositions(token.id);
        } else if token.kind.Character? {
          var newContentId := ContentId(token.contents);
          if newContentId in iconToTokenIds && iconToTokenIds[newContentId] != [] {
            ghost var ids := iconToTokenIds[newContentId];
            raised, placed := ColorWithIcon(token, newContentId);
            if raised {
              return;
            }
            AssignColorsGuarantee([token] + Pick(old(State()), ids));
          } else {
            iconToTokenIds := iconToTokenIds[newContentId := [token.id]];
          }
        }
        Put(placed);
      }
    }
  }

  /** create_room: ok is false when an operation raised. */
  method CreateRoom(updates: seq<Action>) returns (room: Room, ok: bool)
    ensures fresh(room)
    ensures ok <==> RoomTables.CreateRoom(updates).Ok?
    ensures ok ==> room.State() == RoomTables.CreateRoom(updates).room
  {
    hide CreateOrUpdateToken, DeleteToken;
    room := new Room();
    for i := 0 to |updates|
      invariant RoomTables.CreateRoom(updates[..i]) == Ok(room.State())
      invariant fresh(room)
    {
      var raised := false;
      assert updates[..i + 1][..i] == updates[..i];
      match updates[i] {
        case Upsert(token) => raised := room.CreateOrUpdateToken(token);
        case Delete(id) => raised := room.DeleteToken(id);
        case PingAction(_) =>
      }
      if raised {
        assert RoomTables.CreateRoom(updates[..i + 1]).Raised?;
        assert updates == updates[..i + 1] + updates[i + 1..];
        RunConcat(EMPTY_ROOM, updates[..i + 1], updates[i + 1..]);
        return room, false;
      }
    }
    assert updates[..|updates|] == updates;
    ok := true;
  }
}
