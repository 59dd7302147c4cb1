/** The client's board as a value (web/src/ui/board/board-state.ts): entities by id, token ids by
    position, character ids by content. */
module ClientTables {
  import opened Sequences
  import opened Components
  import opened PosStr

  datatype ClientToken = ClientToken(id: string, kind: Kind, contents: Contents, pos: Cell, color: Option<Color>)

  datatype Entity = PingEntity(ping: Ping) | TokenEntity(token: ClientToken)

  datatype ClientAction = UpsertToken(token: ClientToken) | DeleteId(entityId: string) | AddPing(ping: Ping)

  function EntityId(e: Entity): string
  {
    match e
    case PingEntity(ping) => ping.id
    case TokenEntity(token) => token.id
  }

  datatype BoardState = BoardState(
    entityById: map<string, Entity>,
    tokenIdsByPosStr: map<string, string>,
    charIdsByContentId: map<string, seq<string>>)

  const EMPTY_BOARD := BoardState(map[], map[], map[])

  function CharIds(b: BoardState, contentId: string): seq<string>
  {
    if contentId in b.charIdsByContentId then b.charIdsByContentId[contentId] else []
  }

  function DeleteEntity(b: BoardState, id: string): BoardState
  {
    if id !in b.entityById then b
    else
      var b' := b.(entityById := b.entityById - {id});
      match b.entityById[id]
      case PingEntity(_) => b'
      case TokenEntity(token) =>
        var b'' := b'.(tokenIdsByPosStr := b.tokenIdsByPosStr - {ToPosStr(token.pos)});
        if token.kind.Floor? then b''
        else
          var contentId := ContentId(token.contents);
          b''.(charIdsByContentId := b.charIdsByContentId[contentId := Remove(CharIds(b, contentId), id)])
  }

  /** A truthy id of somebody else on the token's position. */
  predicate Collides(b: BoardState, e: Entity)
  {
    e.TokenEntity? &&
    (var posStr := ToPosStr(e.token.pos);
     posStr in b.tokenIdsByPosStr && b.tokenIdsByPosStr[posStr] != "" && b.tokenIdsByPosStr[posStr] != e.token.id)
  }

  /** The book-keeping for a new entity. */
  function Insert(b: BoardState, e: Entity): BoardState
  {
    var b' := b.(entityById := b.entityById[EntityId(e) := e]);
    match e
    case PingEntity(_) => b'
    case TokenEntity(token) =>
      var b'' := b'.(tokenIdsByPosStr := b.tokenIdsByPosStr[ToPosStr(token.pos) := token.id]);
      if token.kind.Floor? then b''
      else
        var contentId := ContentId(token.contents);
        b''.(charIdsByContentId := b.charIdsByContentId[contentId := CharIds(b, contentId) + [token.id]])
  }

  // ----- Colours of a confirmed upsert -----

  function WithoutColor(unused: seq<Color>, color: Color): seq<Color>
  {
    // splice(findIndex(...), 1): an index of -1 drops the last entry.
    if color in unused then Remove(unused, color)
    else if unused == [] then []
    else unused[..|unused| - 1]
  }

  predicate IsToken(entities: map<string, Entity>, id: string)
  {
    id in entities && entities[id].TokenEntity?
  }

  /** The palette entries left after each of the tokens has taken its own. */
  function UnusedColors(entities: map<string, Entity>, ids: seq<string>, unused: seq<Color>): seq<Color>
  {
    if ids == [] then unused
    else if IsToken(entities, ids[0]) && entities[ids[0]].token.color.Some? then
      UnusedColors(entities, ids[1..], WithoutColor(unused, entities[ids[0]].token.color.value))
    else UnusedColors(entities, ids[1..], unused)
  }

  /** Each bare token takes the first colour left; none when the palette is used up. */
  function Tint(entities: map<string, Entity>, ids: seq<string>, unused: seq<Color>): map<string, Entity>
  {
    if ids == [] then entities
    else if IsToken(entities, ids[0]) && entities[ids[0]].token.color.None? then
      var color := if unused == [] then None else Some(unused[0]);
      var token := entities[ids[0]].token.(color := color);
      Tint(entities[ids[0] := TokenEntity(token)], ids[1..], if unused == [] then [] else unused[1..])
    else Tint(entities, ids[1..], unused)
  }

  function ColorList(b: BoardState, ids: seq<string>): BoardState
  {
    b.(entityById := Tint(b.entityById, ids, UnusedColors(b.entityById, ids, PALETTE)))
  }

  function UpsertEntity(b: BoardState, e: Entity, isConfirmed: bool): BoardState
  {
    if Collides(b, e) then b
    else
      var b' := Insert(DeleteEntity(b, EntityId(e)), e);
      if e.TokenEntity? && e.token.kind.Character? && isConfirmed
         && |CharIds(b', ContentId(e.token.contents))| > 1
      then ColorList(b', CharIds(b', ContentId(e.token.contents)))
      else b'
  }

  function ApplyAction(b: BoardState, a: ClientAction, isConfirmed: bool): BoardState
  {
    match a
    case UpsertToken(token) => UpsertEntity(b, TokenEntity(token), isConfirmed)
    case DeleteId(id) => DeleteEntity(b, id)
    case AddPing(ping) => UpsertEntity(b, PingEntity(ping), isConfirmed)
  }

  function ApplyAll(b: BoardState, actions: seq<ClientAction>, isConfirmed: bool): BoardState
  {
    if actions == [] then b
    else ApplyAction(ApplyAll(b, actions[..|actions| - 1], isConfirmed), actions[|actions| - 1], isConfirmed)
  }

  ghost predicate NamedActions(actions: seq<ClientAction>)
  {
    forall i :: 0 <= i < |actions| && actions[i].UpsertToken? ==> actions[i].token.id != ""
  }

  lemma {:induction false} ApplyAllConcat(b: BoardState, x: seq<ClientAction>, y: seq<ClientAction>, isConfirmed: bool)
    ensures ApplyAll(b, x + y, isConfirmed) == ApplyAll(ApplyAll(b, x, isConfirmed), y, isConfirmed)
  {
    hide ApplyAction;
    if y == [] {
      assert x + y == x;
    } else {
      var front := y[..|y| - 1];
      ApplyAllConcat(b, x, front, isConfirmed);
      assert (x + y)[..|x + y| - 1] == x + front;
    }
  }

  // ----- The indexes agree -----

  ghost predicate IdsAgree(entities: map<string, Entity>)
  {
    forall id :: id in entities ==> EntityId(entities[id]) == id && (entities[id].TokenEntity? ==> id != "")
  }

  /** tokenIdsByPosStr is exactly the inverse of the positions of the tokens. */
  ghost predicate PositionsAgree(entities: map<string, Entity>, ids: map<string, string>)
  {
    && (forall posStr :: posStr in ids ==>
          IsToken(entities, ids[posStr]) && ToPosStr(entities[ids[posStr]].token.pos) == posStr)
    && (forall id :: IsToken(entities, id) ==>
          ToPosStr(entities[id].token.pos) in ids && ids[ToPosStr(entities[id].token.pos)] == id)
  }

  ghost predicate IsCharacter(entities: map<string, Entity>, id: string, contentId: string)
  {
    IsToken(entities, id) && entities[id].token.kind.Character? && ContentId(entities[id].token.contents) == contentId
  }

  /** Each list holds each of its characters exactly once. */
  ghost predicate ListsAgree(b: BoardState)
  {
    && (forall contentId :: NoDuplicates(CharIds(b, contentId)))
    && (forall contentId, id :: id in CharIds(b, contentId) <==> IsCharacter(b.entityById, id, contentId))
  }

  /** What holds of tokens without an id, too: entities are stored under their ids, an occupied
      position is that of its occupant, and the lists are right. */
  ghost predicate Sound(b: BoardState)
  {
    && (forall id :: id in b.entityById ==> EntityId(b.entityById[id]) == id)
    && (forall posStr :: posStr in b.tokenIdsByPosStr ==> Occupies(b.entityById, b.tokenIdsByPosStr[posStr], posStr))
    && ListsAgree(b)
  }

  ghost predicate Occupies(entities: map<string, Entity>, id: string, posStr: string)
  {
    IsToken(entities, id) && ToPosStr(entities[id].token.pos) == posStr
  }

  ghost predicate Valid(b: BoardState)
  {
    IdsAgree(b.entityById) && PositionsAgree(b.entityById, b.tokenIdsByPosStr) && ListsAgree(b)
  }

  lemma PositionsAfterDelete(entities: map<string, Entity>, ids: map<string, string>, id: string)
    requires PositionsAgree(entities, ids) && IsToken(entities, id)
    ensures PositionsAgree(entities - {id}, ids - {ToPosStr(entities[id].token.pos)})
  {
    hide ToPosStr;
    var posStr := ToPosStr(entities[id].token.pos);
    forall other | IsToken(entities - {id}, other)
      ensures ToPosStr(entities[other].token.pos) != posStr
      ensures ToPosStr(entities[other].token.pos) in ids && ids[ToPosStr(entities[other].token.pos)] == other
    {
      assert IsToken(entities, other);
    }
  }

  lemma PositionsAfterInsert(entities: map<string, Entity>, ids: map<string, string>, token: ClientToken)
    requires PositionsAgree(entities, ids) && token.id !in entities
    requires ToPosStr(token.pos) !in ids
    ensures PositionsAgree(entities[token.id := TokenEntity(token)], ids[ToPosStr(token.pos) := token.id])
  {
    hide ToPosStr;
    var entities' := entities[token.id := TokenEntity(token)];
    forall id | IsToken(entities', id) && id != token.id
      ensures IsToken(entities, id)
    {
    }
  }

  lemma PositionsWithoutPing(entities: map<string, Entity>, ids: map<string, string>, id: string)
    requires PositionsAgree(entities, ids) && !IsToken(entities, id)
    ensures PositionsAgree(entities - {id}, ids)
    ensures forall ping: Ping :: PositionsAgree((entities - {id})[id := PingEntity(ping)], ids)
  {
    hide ToPosStr;
  }

  lemma ListsAfterDelete(b: BoardState, id: string)
    requires ListsAgree(b)
    ensures ListsAgree(DeleteEntity(b, id))
  {
    hide ToPosStr, ContentId, Remove;
    var b' := DeleteEntity(b, id);
    forall contentId
      ensures NoDuplicates(CharIds(b', contentId))
      ensures forall other :: other in CharIds(b', contentId) <==> IsCharacter(b'.entityById, other, contentId)
    {
      assert NoDuplicates(CharIds(b, contentId));
      assert forall other :: other in CharIds(b, contentId) <==> IsCharacter(b.entityById, other, contentId);
      RemoveFromDistinct(CharIds(b, contentId), id);
    }
  }

  lemma ListsAfterInsert(b: BoardState, e: Entity)
    requires ListsAgree(b) && EntityId(e) !in b.entityById
    ensures ListsAgree(Insert(b, e))
  {
    hide ToPosStr, ContentId;
    var b' := Insert(b, e);
    forall contentId
      ensures NoDuplicates(CharIds(b', contentId))
      ensures forall other :: other in CharIds(b', contentId) <==> IsCharacter(b'.entityById, other, contentId)
    {
      assert NoDuplicates(CharIds(b, contentId));
      assert forall other :: other in CharIds(b, contentId) <==> IsCharacter(b.entityById, other, contentId);
      assert EntityId(e) !in CharIds(b, contentId);
    }
  }

  lemma {:induction false} DeleteValid(b: BoardState, id: string)
    requires Valid(b)
    ensures Valid(DeleteEntity(b, id)) && id !in DeleteEntity(b, id).entityById
    ensures id in b.entityById && b.entityById[id].TokenEntity? && b.entityById[id].token.kind.Character? ==>
      ContentId(b.entityById[id].token.contents) in b.charIdsByContentId
  {
    hide ToPosStr, ContentId, Remove, ListsAgree, PositionsAgree;
    ListsAfterDelete(b, id);
    if IsToken(b.entityById, id) {
      PositionsAfterDelete(b.entityById, b.tokenIdsByPosStr, id);
      CharacterListed(b, id);
    } else if id in b.entityById {
      PositionsWithoutPing(b.entityById, b.tokenIdsByPosStr, id);
    }
  }

  /** deleteEntity never looks into a list that is not there. */
  lemma CharacterListed(b: BoardState, id: string)
    requires ListsAgree(b) && IsToken(b.entityById, id)
    ensures b.entityById[id].token.kind.Character? ==>
      ContentId(b.entityById[id].token.contents) in b.charIdsByContentId
  {
    hide ContentId;
    if b.entityById[id].token.kind.Character? {
      assert IsCharacter(b.entityById, id, ContentId(b.entityById[id].token.contents));
    }
  }

  lemma InsertValid(b: BoardState, e: Entity)
    requires Valid(b) && EntityId(e) !in b.entityById
    requires e.TokenEntity? ==> e.token.id != "" && ToPosStr(e.token.pos) !in b.tokenIdsByPosStr
    ensures Valid(Insert(b, e))
  {
    ListsAfterInsert(b, e);
    hide ToPosStr, ContentId, ListsAgree, PositionsAgree;
    match e
    case TokenEntity(token) => PositionsAfterInsert(b.entityById, b.tokenIdsByPosStr, token);
    case PingEntity(ping) =>
      PositionsWithoutPing(b.entityById, b.tokenIdsByPosStr, ping.id);
      assert (b.entityById - {ping.id})[ping.id := e] == b.entityById[ping.id := e];
  }

  // ----- Colours aside -----

  function PlainToken(t: ClientToken): ClientToken
  {
    t.(color := None)
  }

  function PlainEntity(e: Entity): Entity
  {
    match e
    case PingEntity(_) => e
    case TokenEntity(token) => TokenEntity(PlainToken(token))
  }

  function PlainEntities(entities: map<string, Entity>): map<string, Entity>
  {
    map id | id in entities :: PlainEntity(entities[id])
  }

  /** The board with every colour wiped off. */
  function Plain(b: BoardState): BoardState
  {
    b.(entityById := PlainEntities(b.entityById))
  }

  lemma {:induction false} TintIsPlain(entities: map<string, Entity>, ids: seq<string>, unused: seq<Color>)
    ensures PlainEntities(Tint(entities, ids, unused)) == PlainEntities(entities)
  {
    if ids != [] {
      if IsToken(entities, ids[0]) && entities[ids[0]].token.color.None? {
        var color := if unused == [] then None else Some(unused[0]);
        var token := entities[ids[0]].token.(color := color);
        var entities' := entities[ids[0] := TokenEntity(token)];
        TintIsPlain(entities', ids[1..], if unused == [] then [] else unused[1..]);
        assert PlainEntities(entities') == PlainEntities(entities);
      } else {
        TintIsPlain(entities, ids[1..], unused);
      }
    }
  }

  lemma ListsTransfer(b: BoardState, b': BoardState)
    requires ListsAgree(b)
    requires b' == b.(entityById := b'.entityById) && b'.entityById.Keys == b.entityById.Keys
    requires forall id :: id in b.entityById ==> PlainEntity(b'.entityById[id]) == PlainEntity(b.entityById[id])
    ensures ListsAgree(b')
  {
    hide ToPosStr, ContentId;
    forall contentId, id
      ensures id in CharIds(b', contentId) <==> IsCharacter(b'.entityById, id, contentId)
    {
      assert id in CharIds(b, contentId) <==> IsCharacter(b.entityById, id, contentId);
      assert id in b.entityById ==> PlainEntity(b'.entityById[id]) == PlainEntity(b.entityById[id]);
    }
    forall contentId ensures NoDuplicates(CharIds(b', contentId)) {
      assert NoDuplicates(CharIds(b, contentId));
    }
  }

  lemma {:induction false} ValidTransfers(b: BoardState, b': BoardState)
    requires Valid(b)
    requires b' == b.(entityById := b'.entityById) && b'.entityById.Keys == b.entityById.Keys
    requires forall id :: id in b.entityById ==> PlainEntity(b'.entityById[id]) == PlainEntity(b.entityById[id])
    ensures Valid(b')
  {
    hide ToPosStr, ContentId;
    forall id | id in b.entityById
      ensures EntityId(b'.entityById[id]) == EntityId(b.entityById[id])
      ensures IsToken(b'.entityById, id) <==> IsToken(b.entityById, id)
      ensures IsToken(b.entityById, id) ==> b'.entityById[id].token.pos == b.entityById[id].token.pos
    {
      assert PlainEntity(b'.entityById[id]) == PlainEntity(b.entityById[id]);
    }
    assert PositionsAgree(b'.entityById, b'.tokenIdsByPosStr);
    ListsTransfer(b, b');
  }

  /** Whether an index is right does not depend on colours. */
  lemma ValidIffPlainValid(b: BoardState)
    ensures Valid(b) <==> Valid(Plain(b))
  {
    hide Valid;
    if Valid(b) {
      ValidTransfers(b, Plain(b));
    }
    if Valid(Plain(b)) {
      ValidTransfers(Plain(b), b);
    }
  }

  lemma DeletePlain(b: BoardState, id: string)
    ensures Plain(DeleteEntity(b, id)) == DeleteEntity(Plain(b), id)
  {
    hide ToPosStr, ContentId, Remove;
    assert PlainEntities(b.entityById - {id}) == PlainEntities(b.entityById) - {id};
    assert forall contentId :: CharIds(Plain(b), contentId) == CharIds(b, contentId);
  }

  lemma InsertPlain(b: BoardState, e: Entity)
    ensures Plain(Insert(b, e)) == Insert(Plain(b), PlainEntity(e))
  {
    hide ToPosStr, ContentId;
    assert PlainEntities(b.entityById[EntityId(e) := e]) == PlainEntities(b.entityById)[EntityId(e) := PlainEntity(e)];
    assert forall contentId :: CharIds(Plain(b), contentId) == CharIds(b, contentId);
  }

  function PlainAction(a: ClientAction): ClientAction
  {
    if a.UpsertToken? then UpsertToken(PlainToken(a.token)) else a
  }

  /** Confirmed or not, an action does the same thing, colours aside. */
  lemma {:induction false} ApplyPlain(b: BoardState, a: ClientAction, isConfirmed: bool)
    ensures Plain(ApplyAction(b, a, isConfirmed)) == ApplyAction(Plain(b), PlainAction(a), false)
  {
    match a
    case UpsertToken(token) => UpsertPlain(b, TokenEntity(token), isConfirmed);
    case AddPing(ping) => UpsertPlain(b, PingEntity(ping), isConfirmed);
    case DeleteId(id) => DeletePlain(b, id);
  }

  lemma {:induction false} UpsertPlain(b: BoardState, e: Entity, isConfirmed: bool)
    ensures Plain(UpsertEntity(b, e, isConfirmed)) == UpsertEntity(Plain(b), PlainEntity(e), false)
  {
    hide ToPosStr, ContentId, Remove, DeleteEntity, Insert, Tint, UnusedColors;
    DeletePlain(b, EntityId(e));
    var b' := DeleteEntity(b, EntityId(e));
    InsertPlain(b', e);
    if e.TokenEntity? {
      var ids := CharIds(Insert(b', e), ContentId(e.token.contents));
      TintIsPlain(Insert(b', e).entityById, ids, UnusedColors(Insert(b', e).entityById, ids, PALETTE));
    }
  }

  lemma {:induction false} ApplyAllPlain(b: BoardState, b': BoardState, actions: seq<ClientAction>, c: bool, c': bool)
    requires Plain(b) == Plain(b')
    ensures Plain(ApplyAll(b, actions, c)) == Plain(ApplyAll(b', actions, c'))
  {
    if actions != [] {
      var front, last := actions[..|actions| - 1], actions[|actions| - 1];
      ApplyAllPlain(b, b', front, c, c');
      ApplyPlain(ApplyAll(b, front, c), last, c);
      ApplyPlain(ApplyAll(b', front, c'), last, c');
    }
  }

  // ----- Every reachable board -----

  lemma {:induction false} UpsertValid(b: BoardState, e: Entity, isConfirmed: bool)
    requires Valid(b) && (e.TokenEntity? ==> e.token.id != "")
    ensures Valid(UpsertEntity(b, e, isConfirmed))
  {
    hide ToPosStr, ContentId, Remove, ColorList, Valid;
    if !Collides(b, e) {
      DeleteValid(b, EntityId(e));
      if e.TokenEntity? {
        FreeAfterDelete(b, e);
      }
      var b' := DeleteEntity(b, EntityId(e));
      InsertValid(b', e);
      if e.TokenEntity? {
        ColorListValid(Insert(b', e), CharIds(Insert(b', e), ContentId(e.token.contents)));
      }
    }
  }

  lemma ColorListValid(b: BoardState, ids: seq<string>)
    requires Valid(b)
    ensures Valid(ColorList(b, ids))
  {
    hide Valid, Tint, UnusedColors;
    TintIsPlain(b.entityById, ids, UnusedColors(b.entityById, ids, PALETTE));
    ValidIffPlainValid(b);
    ValidIffPlainValid(ColorList(b, ids));
  }

  lemma SoundAfterDelete(b: BoardState, id: string)
    requires Sound(b)
    ensures Sound(DeleteEntity(b, id)) && id !in DeleteEntity(b, id).entityById
  {
    hide ToPosStr, ContentId, Remove, ListsAgree;
    ListsAfterDelete(b, id);
  }

  lemma SoundAfterInsert(b: BoardState, e: Entity)
    requires Sound(b) && EntityId(e) !in b.entityById
    ensures Sound(Insert(b, e))
  {
    hide ToPosStr, ContentId, ListsAgree;
    ListsAfterInsert(b, e);
  }

  lemma SoundAfterColors(b: BoardState, ids: seq<string>)
    requires Sound(b)
    ensures Sound(ColorList(b, ids))
  {
    hide ToPosStr, ContentId, ListsAgree, Tint, UnusedColors;
    TintIsPlain(b.entityById, ids, UnusedColors(b.entityById, ids, PALETTE));
    var b' := ColorList(b, ids);
    var p, p' := PlainEntities(b.entityById), PlainEntities(b'.entityById);
    assert b.entityById.Keys == p.Keys == p'.Keys == b'.entityById.Keys;
    forall id | id in b.entityById ensures PlainEntity(b'.entityById[id]) == PlainEntity(b.entityById[id]) {
      assert p'[id] == p[id];
    }
    ListsTransfer(b, b');
  }

  /** No upsert spoils that, confirmed or not, with an id or without. */
  lemma {:induction false} UpsertSound(b: BoardState, e: Entity, isConfirmed: bool)
    requires Sound(b)
    ensures Sound(UpsertEntity(b, e, isConfirmed))
  {
    hide ToPosStr, ContentId, Remove, Sound, ColorList, DeleteEntity, Insert;
    if !Collides(b, e) {
      SoundAfterDelete(b, EntityId(e));
      SoundAfterInsert(DeleteEntity(b, EntityId(e)), e);
      if e.TokenEntity? {
        var b' := Insert(DeleteEntity(b, EntityId(e)), e);
        SoundAfterColors(b', CharIds(b', ContentId(e.token.contents)));
      }
    }
  }

  lemma ApplySound(b: BoardState, a: ClientAction, isConfirmed: bool)
    requires Sound(b)
    ensures Sound(ApplyAction(b, a, isConfirmed))
  {
    hide Sound, UpsertEntity, DeleteEntity;
    match a
    case UpsertToken(token) => UpsertSound(b, TokenEntity(token), isConfirmed);
    case AddPing(ping) => UpsertSound(b, PingEntity(ping), isConfirmed);
    case DeleteId(id) => SoundAfterDelete(b, id);
  }

  /** Every reachable board, tokens without an id included: entities are stored under their ids, an
      occupied position is that of its occupant, each list holds each of its characters exactly once. */
  lemma {:induction false} ApplyAllSound(b: BoardState, actions: seq<ClientAction>, isConfirmed: bool)
    requires Sound(b)
    ensures Sound(ApplyAll(b, actions, isConfirmed))
  {
    if actions != [] {
      hide Sound, ApplyAction;
      ApplyAllSound(b, actions[..|actions| - 1], isConfirmed);
      ApplySound(ApplyAll(b, actions[..|actions| - 1], isConfirmed), actions[|actions| - 1], isConfirmed);
    }
  }

  /** Without a collision the position is free once the entity's old self is gone. */
  lemma FreeAfterDelete(b: BoardState, e: Entity)
    requires Valid(b) && !Collides(b, e) && e.TokenEntity?
    ensures ToPosStr(e.token.pos) !in DeleteEntity(b, EntityId(e)).tokenIdsByPosStr
  {
    hide ToPosStr, ContentId, Remove;
    var posStr := ToPosStr(e.token.pos);
    if posStr in b.tokenIdsByPosStr {
      var owner := b.tokenIdsByPosStr[posStr];
      assert IsToken(b.entityById, owner) && owner != "";
      assert owner == e.token.id;
      assert ToPosStr(b.entityById[owner].token.pos) == posStr;
    }
  }

  lemma {:induction false} ApplyValid(b: BoardState, a: ClientAction, isConfirmed: bool)
    requires Valid(b) && (a.UpsertToken? ==> a.token.id != "")
    ensures Valid(ApplyAction(b, a, isConfirmed))
  {
    match a
    case UpsertToken(token) => UpsertValid(b, TokenEntity(token), isConfirmed);
    case AddPing(ping) => UpsertValid(b, PingEntity(ping), isConfirmed);
    case DeleteId(id) => DeleteValid(b, id);
  }

  /** Every reachable client board keeps its indexes in agreement, confirmed or not, with no
      condition on changes of kind or contents. */
  lemma {:induction false} ApplyAllValid(b: BoardState, actions: seq<ClientAction>, isConfirmed: bool)
    requires Valid(b) && NamedActions(actions)
    ensures Valid(ApplyAll(b, actions, isConfirmed))
  {
    if actions != [] {
      ApplyAllValid(b, actions[..|actions| - 1], isConfirmed);
      ApplyValid(ApplyAll(b, actions[..|actions| - 1], isConfirmed), actions[|actions| - 1], isConfirmed);
    }
  }

  lemma EmptyBoardValid()
    ensures Valid(EMPTY_BOARD)
  {
  }

  /** On a valid board no two tokens are on one position. */
  lemma OneTokenPerPosition(b: BoardState, a: string, c: string)
    requires Valid(b) && IsToken(b.entityById, a) && IsToken(b.entityById, c)
    ensures b.entityById[a].token.pos == b.entityById[c].token.pos <==> a == c
  {
    ToPosStrInjective(b.entityById[a].token.pos, b.entityById[c].token.pos);
  }
}
