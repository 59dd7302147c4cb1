/** What an action does to the client's board (web/src/ui/board/board-state.ts:47-133), said about
    entities, positions and lists, without the look-ups by position string. */
module ClientMeaning {
  import opened Sequences
  import opened Components
  import opened PosStr
  import opened ClientTables

  /** Another token stands where this one would go. */
  ghost predicate InTheWay(b: BoardState, token: ClientToken)
  {
    exists id :: id != token.id && IsToken(b.entityById, id) && b.entityById[id].token.pos == token.pos
  }

  lemma CollidesIff(b: BoardState, token: ClientToken)
    requires Valid(b)
    ensures Collides(b, TokenEntity(token)) <==> InTheWay(b, token)
  {
    hide ToPosStr, ListsAgree;
    if Collides(b, TokenEntity(token)) {
      var id := b.tokenIdsByPosStr[ToPosStr(token.pos)];
      ToPosStrInjective(b.entityById[id].token.pos, token.pos);
      assert IsToken(b.entityById, id);
    }
    if id :| id != token.id && IsToken(b.entityById, id) && b.entityById[id].token.pos == token.pos {
      assert b.tokenIdsByPosStr[ToPosStr(b.entityById[id].token.pos)] == id;
    }
  }

  lemma InsertedEntities(b: BoardState, e: Entity)
    ensures Insert(DeleteEntity(b, EntityId(e)), e).entityById == b.entityById[EntityId(e) := e]
  {
    hide ToPosStr, ContentId, Remove;
  }

  /** A ping is put on the board as it is, whatever is there; a deletion takes away exactly the entity
      with that id; a token is put on the board as it is unless another token is in the way, and then
      nothing happens. A confirmed token may change colours, and nothing but colours. */
  lemma ActionMeans(b: BoardState, a: ClientAction, isConfirmed: bool)
    requires Valid(b)
    ensures var b' := ApplyAction(b, a, isConfirmed);
      match a
      case AddPing(ping) => b'.entityById == b.entityById[ping.id := PingEntity(ping)]
      case DeleteId(id) => b'.entityById == b.entityById - {id}
      case UpsertToken(token) =>
        if InTheWay(b, token) then b' == b
        else
          && PlainEntities(b'.entityById) == PlainEntities(b.entityById[token.id := TokenEntity(token)])
          && (!isConfirmed || token.kind.Floor? ==> b'.entityById == b.entityById[token.id := TokenEntity(token)])
  {
    hide ToPosStr, ContentId, Remove, Insert, Tint, UnusedColors, Valid, Collides, InTheWay, PlainEntities;
    match a
    case AddPing(ping) => PingPlaced(b, ping, isConfirmed);
    case DeleteId(id) => DeletedEntities(b, id);
    case UpsertToken(token) =>
      CollidesIff(b, token);
      InsertedEntities(b, TokenEntity(token));
      var b' := Insert(DeleteEntity(b, token.id), TokenEntity(token));
      var ids := CharIds(b', ContentId(token.contents));
      TintIsPlain(b'.entityById, ids, UnusedColors(b'.entityById, ids, PALETTE));
  }

  lemma DeletedEntities(b: BoardState, id: string)
    ensures DeleteEntity(b, id).entityById == b.entityById - {id}
  {
    hide ToPosStr, ContentId, Remove;
  }

  /** On any board at all. */
  lemma PingPlaced(b: BoardState, ping: Ping, isConfirmed: bool)
    ensures ApplyAction(b, AddPing(ping), isConfirmed).entityById == b.entityById[ping.id := PingEntity(ping)]
  {
    hide ToPosStr, ContentId, Remove, Insert, DeleteEntity;
    InsertedEntities(b, PingEntity(ping));
  }

  // ----- A ping stays where it is -----

  /** The action puts on the board, or takes away, the entity called id. */
  predicate Touches(a: ClientAction, id: string)
  {
    match a
    case UpsertToken(token) => token.id == id
    case DeleteId(other) => other == id
    case AddPing(ping) => ping.id == id
  }

  lemma OthersKeepPing(b: BoardState, a: ClientAction, isConfirmed: bool, ping: Ping)
    requires ping.id in b.entityById && b.entityById[ping.id] == PingEntity(ping) && !Touches(a, ping.id)
    ensures var b' := ApplyAction(b, a, isConfirmed);
      ping.id in b'.entityById && b'.entityById[ping.id] == PingEntity(ping)
  {
    hide ToPosStr, ContentId, Remove, Insert, DeleteEntity, Tint, UnusedColors;
    match a
    case AddPing(other) => PingPlaced(b, other, isConfirmed);
    case DeleteId(id) => DeletedEntities(b, id);
    case UpsertToken(token) =>
      InsertedEntities(b, TokenEntity(token));
      var b' := Insert(DeleteEntity(b, token.id), TokenEntity(token));
      var ids := CharIds(b', ContentId(token.contents));
      TintIsPlain(b'.entityById, ids, UnusedColors(b'.entityById, ids, PALETTE));
      var p, p' := PlainEntities(b'.entityById), PlainEntities(ColorList(b', ids).entityById);
      assert ping.id in p && p[ping.id] == PingEntity(ping);
      assert ping.id in p' && p'[ping.id] == PingEntity(ping);
  }

  lemma {:induction false} LaterActionsKeepPing(
    b: BoardState, actions: seq<ClientAction>, isConfirmed: bool, ping: Ping)
    requires ping.id in b.entityById && b.entityById[ping.id] == PingEntity(ping)
    requires forall i :: 0 <= i < |actions| ==> !Touches(actions[i], ping.id)
    ensures var b' := ApplyAll(b, actions, isConfirmed);
      ping.id in b'.entityById && b'.entityById[ping.id] == PingEntity(ping)
  {
    hide ApplyAction;
    if actions != [] {
      var n := |actions| - 1;
      LaterActionsKeepPing(b, actions[..n], isConfirmed, ping);
      OthersKeepPing(ApplyAll(b, actions[..n], isConfirmed), actions[n], isConfirmed, ping);
    }
  }

  /** A ping among other actions is on the board afterwards, where it was made, unless something after
      it has its id. */
  lemma PingShows(b: BoardState, x: seq<ClientAction>, ping: Ping, y: seq<ClientAction>, isConfirmed: bool)
    requires forall i :: 0 <= i < |y| ==> !Touches(y[i], ping.id)
    ensures var b' := ApplyAll(b, x + [AddPing(ping)] + y, isConfirmed);
      ping.id in b'.entityById && b'.entityById[ping.id] == PingEntity(ping)
  {
    hide ApplyAction;
    var b1 := ApplyAll(b, x, isConfirmed);
    assert (x + [AddPing(ping)])[..|x|] == x;
    PingPlaced(b1, ping, isConfirmed);
    ApplyAllConcat(b, x + [AddPing(ping)], y, isConfirmed);
    LaterActionsKeepPing(ApplyAll(b, x + [AddPing(ping)], isConfirmed), y, isConfirmed, ping);
  }

  // ----- The order of the lists -----

  /** The list of these contents without id. */
  function Others(b: BoardState, contents: Contents, id: string): seq<string>
  {
    Remove(CharIds(b, ContentId(contents)), id)
  }

  lemma RemovedFromLists(b: BoardState, id: string, contents: Contents)
    requires Valid(b)
    ensures CharIds(DeleteEntity(b, id), ContentId(contents)) == Others(b, contents, id)
  {
    hide ToPosStr, ContentId, PositionsAgree;
    var contentId := ContentId(contents);
    if IsToken(b.entityById, id) && b.entityById[id].token.kind.Character?
       && ContentId(b.entityById[id].token.contents) == contentId {
      assert IsCharacter(b.entityById, id, contentId);
    } else {
      assert !IsCharacter(b.entityById, id, contentId);
      assert id !in CharIds(b, contentId);
    }
  }

  lemma PingCollidesWithNothing(b: BoardState, ping: Ping)
    ensures !Collides(b, PingEntity(ping))
  {
  }

  /** The lists keep the order of arrival: whoever is deleted leaves its list, and whoever is put on the
      board anew or moved goes to the end of its list. */
  lemma ListsInOrder(b: BoardState, a: ClientAction, isConfirmed: bool, contents: Contents)
    requires Valid(b)
    ensures var ids := CharIds(ApplyAction(b, a, isConfirmed), ContentId(contents));
      match a
      case AddPing(ping) => ids == Others(b, contents, ping.id)
      case DeleteId(id) => ids == Others(b, contents, id)
      case UpsertToken(token) =>
        ids == if InTheWay(b, token) then CharIds(b, ContentId(contents))
               else if token.kind.Floor? || token.contents != contents then Others(b, contents, token.id)
               else Others(b, contents, token.id) + [token.id]
  {
    hide ToPosStr, ContentId, Valid, Collides, InTheWay, Tint, UnusedColors, DeleteEntity, Others;
    match a
    case AddPing(ping) =>
      PingCollidesWithNothing(b, ping);
      RemovedFromLists(b, ping.id, contents);
    case DeleteId(id) => RemovedFromLists(b, id, contents);
    case UpsertToken(token) =>
      CollidesIff(b, token);
      RemovedFromLists(b, token.id, contents);
      ContentIdInjective(token.contents, contents);
  }
}
