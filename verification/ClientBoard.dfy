/** The client's board updated in place: upsertEntity, deleteEntity and applyAction of
    web/src/ui/board/board-state.ts. */
module ClientBoard {
  import opened Sequences
  import opened Components
  import opened PosStr
  import opened ClientTables

  class ClientBoard {
    var entityById: map<string, Entity>
    var tokenIdsByPosStr: map<string, string>
    var charIdsByContentId: map<string, seq<string>>

    ghost function State(): BoardState
      reads this
    {
      BoardState(entityById, tokenIdsByPosStr, charIdsByContentId)
    }

    constructor ()
      ensures State() == EMPTY_BOARD
    {
      entityById, tokenIdsByPosStr, charIdsByContentId := map[], map[], map[];
    }

    /** The draft that produce() works on. */
    constructor CopyOf(other: ClientBoard)
      ensures State() == other.State()
    {
      entityById := other.entityById;
      tokenIdsByPosStr := other.tokenIdsByPosStr;
      charIdsByContentId := other.charIdsByContentId;
    }

    /** The list the entity's contents point to is there on every sound board, so looking into it cannot
        fail. */
    method DeleteEntity(entityId: string)
      requires Sound(State())
      modifies this
      ensures State() == ClientTables.DeleteEntity(old(State()), entityId)
      ensures Sound(State()) && (old(Valid(State())) ==> Valid(State()))
    {
      hide ToPosStr, ContentId, Remove;
      SoundAfterDelete(State(), entityId);
      if Valid(State()) {
        DeleteValid(State(), entityId);
      }
      if IsToken(entityById, entityId) {
        CharacterListed(State(), entityId);
      }
      if entityId !in entityById {
        return;
      }
      hide Valid, Sound;
      var entity := entityById[entityId];
      entityById := entityById - {entityId};
      if entity.TokenEntity? {
        tokenIdsByPosStr := tokenIdsByPosStr - {ToPosStr(entity.token.pos)};
        if entity.token.kind.Character? {
          var id := ContentId(entity.token.contents);
          charIdsByContentId := charIdsByContentId[id := Remove(charIdsByContentId[id], entityId)];
        }
      }
    }

    /** Colours handed out to the bare characters of a list after a confirmed upsert. */
    method ColorCharacters(charIds: seq<string>)
      requires forall i :: 0 <= i < |charIds| ==> IsToken(entityById, charIds[i])
      modifies this
      ensures State() == ColorList(old(State()), charIds)
    {
      hide WithoutColor;
      var unusedColors := PALETTE;
      ghost var target := UnusedColors(entityById, charIds, PALETTE);
      assert charIds[0..] == charIds;
      for i := 0 to |charIds|
        invariant State() == old(State())
        invariant UnusedColors(entityById, charIds[i..], unusedColors) == target
      {
        assert charIds[i..][0] == charIds[i] && charIds[i..][1..] == charIds[i + 1..];
        var entity := entityById[charIds[i]].token;
        if entity.color.Some? {
          unusedColors := WithoutColor(unusedColors, entity.color.value);
        }
      }
      assert unusedColors == target;
      ghost var tinted := Tint(entityById, charIds, unusedColors);
      for i := 0 to |charIds|
        invariant forall k :: 0 <= k < |charIds| ==> IsToken(entityById, charIds[k])
        invariant Tint(entityById, charIds[i..], unusedColors) == tinted
        invariant State() == old(State()).(entityById := entityById)
      {
        assert charIds[i..][0] == charIds[i] && charIds[i..][1..] == charIds[i + 1..];
        var entity := entityById[charIds[i]].token;
        if entity.color.None? {
          var color := if unusedColors == [] then None else Some(unusedColors[0]);
          unusedColors := if unusedColors == [] then [] else unusedColors[1..];
          entityById := entityById[charIds[i] := TokenEntity(entity.(color := color))];
        }
      }
    }

    method UpsertEntity(entity: Entity, isConfirmed: bool)
      requires Sound(State())
      modifies this
      ensures State() == ClientTables.UpsertEntity(old(State()), entity, isConfirmed)
      ensures Sound(State())
      ensures old(Valid(State())) && (entity.TokenEntity? ==> entity.token.id != "") ==> Valid(State())
    {
      hide ToPosStr, ContentId, Remove, Valid, Sound, ColorList, ClientTables.DeleteEntity;
      UpsertSound(State(), entity, isConfirmed);
      if Valid(State()) && (entity.TokenEntity? ==> entity.token.id != "") {
        UpsertValid(State(), entity, isConfirmed);
      }
      if entity.TokenEntity? {
        var posStr := ToPosStr(entity.token.pos);
        if posStr in tokenIdsByPosStr && tokenIdsByPosStr[posStr] != "" && tokenIdsByPosStr[posStr] != entity.token.id {
          return;
        }
        assert !Collides(State(), entity);
      }
      SoundAfterDelete(State(), EntityId(entity));
      DeleteAbsent(State(), EntityId(entity));
      if EntityId(entity) in entityById {
        DeleteEntity(EntityId(entity));
      }
      SoundAfterInsert(State(), entity);
      Book(entity);
      if entity.TokenEntity? && entity.token.kind.Character? {
        var id := ContentId(entity.token.contents);
        if |charIdsByContentId[id]| > 1 && isConfirmed {
          ListedAreTokens(State(), id);
          ColorCharacters(charIdsByContentId[id]);
        }
      }
    }

    /** The book-keeping for an entity that is not on the board. */
    method Book(entity: Entity)
      modifies this
      ensures State() == Insert(old(State()), entity)
    {
      hide ToPosStr, ContentId;
      entityById := entityById[EntityId(entity) := entity];
      if entity.TokenEntity? {
        tokenIdsByPosStr := tokenIdsByPosStr[ToPosStr(entity.token.pos) := entity.token.id];
        if entity.token.kind.Character? {
          var id := ContentId(entity.token.contents);
          var charIds := (if id in charIdsByContentId then charIdsByContentId[id] else []) + [entity.token.id];
          charIdsByContentId := charIdsByContentId[id := charIds];
        }
      }
    }

    method ApplyAction(action: ClientAction, isConfirmed: bool)
      requires Sound(State())
      modifies this
      ensures State() == ClientTables.ApplyAction(old(State()), action, isConfirmed)
      ensures Sound(State())
      ensures old(Valid(State())) && (action.UpsertToken? ==> action.token.id != "") ==> Valid(State())
    {
      hide Valid, Sound;
      match action {
        case UpsertToken(token) => UpsertEntity(TokenEntity(token), isConfirmed);
        case DeleteId(id) => DeleteEntity(id);
        case AddPing(ping) => UpsertEntity(PingEntity(ping), isConfirmed);
      }
    }
  }

  lemma DeleteAbsent(b: BoardState, id: string)
    ensures id !in b.entityById ==> ClientTables.DeleteEntity(b, id) == b
  {
  }

  lemma ListedAreTokens(b: BoardState, contentId: string)
    requires Sound(b)
    ensures forall i :: 0 <= i < |CharIds(b, contentId)| ==> IsToken(b.entityById, CharIds(b, contentId)[i])
  {
    forall i | 0 <= i < |CharIds(b, contentId)| ensures IsToken(b.entityById, CharIds(b, contentId)[i]) {
      assert CharIds(b, contentId)[i] in CharIds(b, contentId);
    }
  }
}
