/** The icon table of a room: when it lists exactly the live characters, and why such a room never
    raises as long as live tokens keep their kind and live characters their contents. */
module RoomIcons {
  import opened Sequences
  import opened Components
  import opened Coloring
  import opened Board
  import opened RoomTables

  lemma {:induction false} CharactersMembers(order: seq<string>, tokens: map<string, Token>, contentId: string)
    requires NoDuplicates(order)
    ensures var r := CharactersWith(order, tokens, contentId);
      && NoDuplicates(r)
      && (forall id :: id in r <==> id in order && IsCharacterWith(tokens, id, contentId))
  {
    if order != [] {
      CharactersMembers(order[..|order| - 1], tokens, contentId);
    }
  }

  lemma {:induction false} CharactersCongruent(
    order: seq<string>, tokens: map<string, Token>, tokens': map<string, Token>, contentId: string)
    requires forall i :: 0 <= i < |order| ==>
      (IsCharacterWith(tokens, order[i], contentId) <==> IsCharacterWith(tokens', order[i], contentId))
    ensures CharactersWith(order, tokens, contentId) == CharactersWith(order, tokens', contentId)
  {
    if order != [] {
      CharactersCongruent(order[..|order| - 1], tokens, tokens', contentId);
    }
  }

  lemma CharactersSnoc(order: seq<string>, id: string, tokens: map<string, Token>, contentId: string)
    ensures CharactersWith(order + [id], tokens, contentId) ==
      CharactersWith(order, tokens, contentId) + (if IsCharacterWith(tokens, id, contentId) then [id] else [])
  {
    assert (order + [id])[..|order|] == order;
  }

  lemma {:induction false} CharactersRemove(
    order: seq<string>, tokens: map<string, Token>, id: string, contentId: string)
    requires NoDuplicates(order)
    ensures CharactersWith(Remove(order, id), tokens - {id}, contentId) ==
      Remove(CharactersWith(order, tokens, contentId), id)
  {
    hide IndexOf, Remove;
    if order != [] {
      var front, y := order[..|order| - 1], order[|order| - 1];
      var list := CharactersWith(front, tokens, contentId);
      assert order == front + [y];
      RemoveSnoc(front, y, id);
      CharactersMembers(front, tokens, contentId);
      RemoveSnoc(list, y, id);
      if y == id {
        CharactersCongruent(front, tokens, tokens - {id}, contentId);
      } else {
        CharactersRemove(front, tokens, id, contentId);
        CharactersSnoc(Remove(front, id), y, tokens - {id}, contentId);
      }
    }
  }

  // ----- Each operation keeps the lists -----

  /** No live token moves to another list. */
  ghost predicate SameCharacters(tokens: map<string, Token>, tokens': map<string, Token>)
  {
    && tokens'.Keys == tokens.Keys
    && (forall id :: id in tokens ==>
          && tokens'[id].kind == tokens[id].kind
          && (tokens[id].kind.Character? ==> tokens'[id].contents == tokens[id].contents))
  }

  lemma ListedWhenSame(s: RoomState, s': RoomState)
    requires Listed(s) && s'.order == s.order && s'.icons == s.icons
    requires SameCharacters(s.tokens, s'.tokens)
    ensures Listed(s')
  {
    forall contentId
      ensures IconList(s', contentId) == CharactersWith(s'.order, s'.tokens, contentId)
    {
      CharactersCongruent(s.order, s.tokens, s'.tokens, contentId);
    }
  }

  /** The lists after a token with a new id has been put on the board. */
  lemma {:induction false} ListedAfterInsert(s: RoomState, s': RoomState, t: Token)
    requires Keyed(s) && Listed(s) && t.id !in s.tokens
    requires s'.order == s.order + [t.id] && t.id in s'.tokens
    requires s'.tokens[t.id].kind == t.kind && s'.tokens[t.id].contents == t.contents
    requires SameCharacters(s.tokens, s'.tokens - {t.id})
    requires forall contentId ::
      IconList(s', contentId) ==
      IconList(s, contentId) + (if t.kind.Character? && ContentId(t.contents) == contentId then [t.id] else [])
    ensures Listed(s')
  {
    forall contentId
      ensures IconList(s', contentId) == CharactersWith(s'.order, s'.tokens, contentId)
    {
      CharactersSnoc(s.order, t.id, s'.tokens, contentId);
      forall i | 0 <= i < |s.order|
        ensures IsCharacterWith(s.tokens, s.order[i], contentId) <==> IsCharacterWith(s'.tokens, s.order[i], contentId)
      {
        assert s.order[i] in s.tokens;
      }
      CharactersCongruent(s.order, s.tokens, s'.tokens, contentId);
    }
  }

  lemma ListsAreLive(s: RoomState, contentId: string)
    requires Keyed(s) && Listed(s)
    ensures AllLive(s, IconList(s, contentId))
  {
    CharactersMembers(s.order, s.tokens, contentId);
    var ids := IconList(s, contentId);
    forall i | 0 <= i < |ids| ensures ids[i] in s.tokens {
      assert ids[i] in ids;
    }
  }

  lemma {:induction false} JoinIconListed(s: RoomState, t: Token)
    requires Indexed(s) && Listed(s) && t.id !in s.tokens && t.kind.Character?
    ensures JoinIcon(s, t).Ok? && Listed(JoinIcon(s, t).room)
  {
    ListsAreLive(s, ContentId(t.contents));
    JoinIconShape(s, t);
    ListedAfterInsert(s, JoinIcon(s, t).room, t);
  }

  /** What joining a list changes: the order, that list, and colours. */
  lemma JoinIconShape(s: RoomState, t: Token)
    requires AllLive(s, IconList(s, ContentId(t.contents))) && t.id !in s.tokens
    ensures JoinIcon(s, t).Ok?
    ensures var s' := JoinIcon(s, t).room;
      && s'.order == s.order + [t.id] && t.id in s'.tokens
      && s'.tokens[t.id].kind == t.kind && s'.tokens[t.id].contents == t.contents
      && SameCharacters(s.tokens, s'.tokens - {t.id})
      && (forall contentId ::
            IconList(s', contentId) ==
            IconList(s, contentId) + (if ContentId(t.contents) == contentId then [t.id] else []))
  {
    hide UnitBlocks, IndexOf, AssignColors, ContentId;
    var ids := IconList(s, ContentId(t.contents));
    if ids != [] {
      PaintedTokens(s, t, ids);
    }
  }

  /** Colouring the tokens of a list changes nothing but colours. */
  lemma PaintedTokens(s: RoomState, t: Token, ids: seq<string>)
    requires AllLive(s, ids)
    ensures var painted := AssignColors([t] + Pick(s, ids));
      var tokens := Paint(s.tokens, ids, painted[1..]);
      && painted[0] == t.(color := painted[0].color)
      && tokens.Keys == s.tokens.Keys
      && (forall id :: id in s.tokens ==> tokens[id] == s.tokens[id].(color := tokens[id].color))
      && (forall id :: id in s.tokens && id !in ids ==> tokens[id] == s.tokens[id])
  {
    hide AssignColors;
    var list := [t] + Pick(s, ids);
    AssignColorsGuarantee(list);
    var painted := AssignColors(list);
    forall i | 0 <= i < |ids|
      ensures painted[1..][i] == s.tokens[ids[i]].(color := painted[1..][i].color)
    {
      assert list[i + 1] == s.tokens[ids[i]];
    }
    PaintKeepsBare(s.tokens, ids, painted[1..]);
  }

  lemma InsertListed(s: RoomState, t: Token)
    requires Indexed(s) && Listed(s) && t.id !in s.tokens && t.kind.Floor?
    ensures Listed(PutToken(s, t))
  {
    hide UnitBlocks, IndexOf, Listed, CharactersWith, CellsAgree, OwnerAgrees, ContentId;
    var s' := PutToken(s, t);
    assert s'.tokens - {t.id} == s.tokens;
    assert s'.icons == s.icons;
    ListedAfterInsert(s, s', t);
  }

  lemma {:induction false} DeleteListed(s: RoomState, id: string)
    requires Indexed(s) && Listed(s)
    ensures DeleteToken(s, id).Ok? && Listed(DeleteToken(s, id).room)
  {
    hide UnitBlocks, IndexOf, Remove;
    if IsCharacterWithSome(s, id) {
      CharactersMembers(s.order, s.tokens, ContentId(s.tokens[id].contents));
      assert id in s.order by {
        assert IndexOf(s.order, id) < |s.order|;
      }
    }
    assert DeleteToken(s, id).Ok?;
    var s' := DeleteToken(s, id).room;
    forall contentId
      ensures IconList(s', contentId) == CharactersWith(s'.order, s'.tokens, contentId)
    {
      CharactersRemove(s.order, s.tokens, id, contentId);
      CharactersMembers(s.order, s.tokens, contentId);
    }
  }

  ghost predicate IsCharacterWithSome(s: RoomState, id: string)
  {
    id in s.tokens && s.tokens[id].kind.Character?
  }

  lemma {:induction false} StepListed(s: RoomState, a: Action)
    requires Indexed(s) && Listed(s) && (a.Upsert? ==> a.token.id != "")
    requires StableStep(Pieces(s), a)
    ensures StepRoom(s, a).Ok? && Listed(StepRoom(s, a).room)
  {
    hide UnitBlocks, IndexOf, Find, Blocked, JoinIcon, CharactersWith;
    match a
    case Upsert(t) =>
      ValidPositionIff(s, t);
      PiecesFind(s, t.id);
      if ValidPosition(s, t) {
        if t.id in s.tokens {
          ListedWhenSame(s, PutToken(RemovePositions(s, t.id), t));
        } else if t.kind.Character? {
          JoinIconListed(s, t);
        } else {
          InsertListed(s, t);
        }
      }
    case Delete(id) => DeleteListed(s, id);
    case PingAction(_) =>
  }

  /** From a room whose lists are right, a log that keeps the looks of live characters never raises,
      and leaves a room whose lists are right. */
  lemma {:induction false} StableRun(s: RoomState, log: seq<Action>)
    requires Indexed(s) && Listed(s) && Named(log) && Stable(Pieces(s), log)
    ensures Run(s, log).Ok?
    ensures Indexed(Run(s, log).room) && Listed(Run(s, log).room)
    ensures Pieces(Run(s, log).room) == Fold(Pieces(s), log)
  {
    if log != [] {
      var n := |log| - 1;
      var front := log[..n];
      assert log == front + [log[n]];
      StableConcat(Pieces(s), front, [log[n]]);
      StableRun(s, front);
      var s1 := Run(s, front).room;
      assert StableStep(Fold(Pieces(s), log[..n]), log[n]);
      StepListed(s1, log[n]);
    }
    if Run(s, log).Ok? {
      RunRefines(s, log);
    }
  }

  lemma EmptyRoomListed()
    ensures Indexed(EMPTY_ROOM) && Listed(EMPTY_ROOM) && Pieces(EMPTY_ROOM) == []
  {
    assert Pieces(EMPTY_ROOM) == [];
  }

  /** A log that keeps the looks of live characters never makes create_room raise; the room it makes
      has all four tables in agreement and the pieces the log means. */
  lemma {:induction false} StableLogsNeverRaise(log: seq<Action>)
    requires Named(log) && Stable([], log)
    ensures CreateRoom(log).Ok?
    ensures Indexed(CreateRoom(log).room) && Listed(CreateRoom(log).room)
    ensures Pieces(CreateRoom(log).room) == Replay(log)
  {
    EmptyRoomListed();
    StableRun(EMPTY_ROOM, log);
  }

  /** In a listed room each list holds every live character with that content exactly once. */
  lemma ListedMeansOnce(s: RoomState, contentId: string)
    requires Keyed(s) && Listed(s)
    ensures NoDuplicates(IconList(s, contentId))
    ensures forall id :: id in IconList(s, contentId) <==> IsCharacterWith(s.tokens, id, contentId)
  {
    CharactersMembers(s.order, s.tokens, contentId);
    forall id | IsCharacterWith(s.tokens, id, contentId) ensures id in s.order {
      assert IndexOf(s.order, id) < |s.order|;
    }
  }
}
