/** Exactly when a room can come to raise (api/src/room.py:42-78): a deletion that does not find the
    token on its icon list, or a new character that meets a dead id there. */
module RoomRaising {
  import opened Sequences
  import opened Components
  import opened Board
  import opened RoomTables
  import opened RoomIcons

  /** The list of these contents holds exactly the live characters that have them, each once, in any
      order. */
  ghost predicate RightList(s: RoomState, contents: Contents)
  {
    var ids := IconList(s, ContentId(contents));
    NoDuplicates(ids) && forall id :: id in ids <==> HasContents(s, id, contents)
  }

  ghost predicate HasContents(s: RoomState, id: string, contents: Contents)
  {
    id in s.tokens && s.tokens[id].kind.Character? && s.tokens[id].contents == contents
  }

  ghost predicate RightLists(s: RoomState)
  {
    forall contents :: RightList(s, contents)
  }

  lemma ListedIsRight(s: RoomState)
    requires Keyed(s) && Listed(s)
    ensures RightLists(s)
  {
    hide Keyed, Listed, ContentId;
    forall contents ensures RightList(s, contents) {
      ListedMeansOnce(s, ContentId(contents));
      forall id ensures IsCharacterWith(s.tokens, id, ContentId(contents)) <==> HasContents(s, id, contents) {
        if id in s.tokens {
          ContentIdInjective(s.tokens[id].contents, contents);
        }
      }
    }
  }

  // ----- Right lists stay right -----

  lemma RightDelete(s: RoomState, id: string)
    requires Keyed(s) && RightLists(s)
    ensures DeleteToken(s, id).Ok? && RightLists(DeleteToken(s, id).room)
  {
    hide UnitBlocks, IndexOf, Remove, ContentId;
    assert id in s.tokens ==> RightList(s, s.tokens[id].contents);
    var s' := DeleteToken(s, id).room;
    forall contents ensures RightList(s', contents) {
      assert RightList(s, contents);
      RemoveFromDistinct(IconList(s, ContentId(contents)), id);
      if id in s.tokens {
        ContentIdInjective(s.tokens[id].contents, contents);
      }
    }
  }

  /** A token moves in place, keeping its looks. */
  lemma RightWhenSame(s: RoomState, s': RoomState)
    requires RightLists(s) && s'.icons == s.icons && SameCharacters(s.tokens, s'.tokens)
    ensures RightLists(s')
  {
    hide ContentId;
    forall contents ensures RightList(s', contents) {
      assert RightList(s, contents);
    }
  }

  lemma RightInsert(s: RoomState, s': RoomState, t: Token)
    requires RightLists(s) && t.id !in s.tokens && t.id in s'.tokens
    requires s'.tokens[t.id].kind == t.kind && s'.tokens[t.id].contents == t.contents
    requires SameCharacters(s.tokens, s'.tokens - {t.id})
    requires forall contentId ::
      IconList(s', contentId) ==
      IconList(s, contentId) + (if t.kind.Character? && ContentId(t.contents) == contentId then [t.id] else [])
    ensures RightLists(s')
  {
    hide ContentId;
    forall contents ensures RightList(s', contents) {
      assert RightList(s, contents);
      var ids, ids' := IconList(s, ContentId(contents)), IconList(s', ContentId(contents));
      ContentIdInjective(t.contents, contents);
      assert t.id !in ids;
      assert ids' == if t.kind.Character? && t.contents == contents then ids + [t.id] else ids + [];
      forall id ensures id in ids' <==> HasContents(s', id, contents) {
        assert id in ids <==> HasContents(s, id, contents);
        assert id != t.id ==> (id in s.tokens <==> id in s'.tokens - {t.id});
        assert id != t.id && id in s.tokens ==> (s'.tokens - {t.id})[id] == s'.tokens[id];
      }
    }
  }

  lemma RightJoin(s: RoomState, t: Token)
    requires RightLists(s) && t.id !in s.tokens && t.kind.Character?
    ensures JoinIcon(s, t).Ok? && RightLists(JoinIcon(s, t).room)
  {
    hide JoinIcon, ContentId;
    assert RightList(s, t.contents);
    var ids := IconList(s, ContentId(t.contents));
    forall i | 0 <= i < |ids| ensures ids[i] in s.tokens {
      assert ids[i] in ids;
    }
    JoinIconShape(s, t);
    RightInsert(s, JoinIcon(s, t).room, t);
  }

  lemma RightFloor(s: RoomState, t: Token)
    requires RightLists(s) && t.id !in s.tokens && t.kind.Floor?
    ensures RightLists(PutToken(s, t))
  {
    hide UnitBlocks;
    assert PutToken(s, t).tokens - {t.id} == s.tokens;
    RightInsert(s, PutToken(s, t), t);
  }

  lemma RightMove(s: RoomState, t: Token)
    requires RightLists(s) && t.id in s.tokens && s.tokens[t.id].kind == t.kind
    requires t.kind.Character? ==> s.tokens[t.id].contents == t.contents
    ensures RightLists(PutToken(RemovePositions(s, t.id), t))
  {
    hide UnitBlocks, RightLists;
    RightWhenSame(s, PutToken(RemovePositions(s, t.id), t));
  }

  lemma {:induction false} RightStep(s: RoomState, a: Action)
    requires Indexed(s) && RightLists(s) && StableStep(Pieces(s), a)
    ensures StepRoom(s, a).Ok? && RightLists(StepRoom(s, a).room)
  {
    hide UnitBlocks, IndexOf, Find, Blocked, JoinIcon, RightLists, PutToken, RemovePositions, DeleteToken;
    match a
    case Upsert(t) =>
      ValidPositionIff(s, t);
      PiecesFind(s, t.id);
      if ValidPosition(s, t) {
        if t.id in s.tokens {
          RightMove(s, t);
        } else if t.kind.Character? {
          RightJoin(s, t);
        } else {
          RightFloor(s, t);
        }
      }
    case Delete(id) => RightDelete(s, id);
    case PingAction(_) =>
  }

  lemma {:induction false} RightRun(s: RoomState, log: seq<Action>)
    requires Indexed(s) && RightLists(s) && Named(log) && Stable(Pieces(s), log)
    ensures Run(s, log).Ok? && RightLists(Run(s, log).room)
  {
    if log != [] {
      hide Indexed, RightLists, StableStep, StepRoom, Stable;
      var front, last := log[..|log| - 1], log[|log| - 1];
      StableFront(Pieces(s), log);
      RightRun(s, front);
      RunRefines(s, front);
      RightStep(Run(s, front).room, last);
    }
  }

  lemma StableFront(b: Board, log: seq<Action>)
    requires Stable(b, log) && log != []
    ensures var n := |log| - 1; Stable(b, log[..n]) && StableStep(Fold(b, log[..n]), log[n])
  {
    hide StableStep, Fold;
    var front := log[..|log| - 1];
    forall k | 0 <= k < |front| ensures StableStep(Fold(b, front[..k]), front[k]) {
      assert front[..k] == log[..k] && StableStep(Fold(b, log[..k]), log[k]);
    }
  }

  // ----- Wrong lists are found out -----

  lemma FreshId(ids: set<string>) returns (id: string)
    ensures id !in ids && id != ""
  {
    var n: nat, rest := 0, ids;
    while rest != {}
      invariant rest <= ids && forall x :: x in ids - rest ==> |x| <= n
      decreases rest
    {
      var x :| x in rest;
      rest := rest - {x};
      n := if |x| > n then |x| else n;
    }
    id := seq(n + 1, _ => 'x');
    assert ids - rest == ids;
    assert |id| == n + 1;
    assert id in ids ==> |id| <= n;
  }

  lemma FreshCell(cells: set<Cell>) returns (c: Cell)
    ensures c !in cells
  {
    var n, rest := 0, cells;
    while rest != {}
      invariant rest <= cells && forall d :: d in cells - rest ==> d.x <= n
      decreases rest
    {
      var d :| d in rest;
      rest := rest - {d};
      n := if d.x > n then d.x else n;
    }
    c := Cell(n + 1, 0, 0);
    assert cells - rest == cells;
    assert c in cells ==> c.x <= n;
  }

  /** A character with these contents on one cell. */
  function Probe(id: string, contents: Contents, c: Cell): Token
  {
    Token(id, Character, contents, UnitBox(c), None)
  }

  /** An id that is on a list without being on the board makes the next character raise. */
  lemma ProbeRaises(s: RoomState, dead: string, id: string, contents: Contents, c: Cell)
    requires dead !in s.tokens && dead in IconList(s, ContentId(contents)) && id !in s.tokens && c !in s.owner
    ensures StepRoom(s, Upsert(Probe(id, contents, c))).Raised?
  {
    hide Blocks, ContentId;
    UnitBlocksMembers(UnitBox(c));
    var ids := IconList(s, ContentId(contents));
    var i :| 0 <= i < |ids| && ids[i] == dead;
    assert !AllLive(s, ids);
  }

  /** After a deletion an id that should not have been on the list, or was there twice, is still on
      it. */
  lemma StaysOnList(s: RoomState, id: string, contents: Contents)
    requires Keyed(s) && DeleteToken(s, id).Ok?
    requires var ids := IconList(s, ContentId(contents));
      id in ids && (HasContents(s, id, contents) ==> exists i, j :: 0 <= i < j < |ids| && ids[i] == ids[j] == id)
    ensures id in IconList(DeleteToken(s, id).room, ContentId(contents))
    ensures id !in DeleteToken(s, id).room.tokens
  {
    hide UnitBlocks, ContentId;
    var ids := IconList(s, ContentId(contents));
    if id in s.tokens {
      ContentIdInjective(s.tokens[id].contents, contents);
    }
    if HasContents(s, id, contents) {
      var i, j :| 0 <= i < j < |ids| && ids[i] == ids[j] == id;
      assert Remove(ids, id)[j - 1] == id;
    }
  }

  lemma WrongListRaises(s: RoomState, contents: Contents) returns (y: seq<Action>)
    requires Indexed(s) && !RightList(s, contents)
    ensures Named(y) && Boxed(y) && Stable(Pieces(s), y) && Run(s, y).Raised?
  {
    hide Indexed, UnitBlocks, ContentId, StepRoom, Stable;
    IndexedIsKeyed(s);
    var ids := IconList(s, ContentId(contents));
    if id :| HasContents(s, id, contents) && id !in ids {
      y := [Delete(id)];
      MissingRaises(s, id, contents);
      DeleteIsStable(Pieces(s), id);
    } else {
      var id := WrongId(s, contents);
      var unused := FreshId(s.tokens.Keys);
      var c := FreshCell(s.owner.Keys);
      y := [Delete(id), Upsert(Probe(unused, contents, c))];
      TwoSteps(s, y);
      ProbeIsStable(s, id, Probe(unused, contents, c));
      if StepRoom(s, Delete(id)).Ok? {
        DeletedOnly(s, id);
        StaysOnList(s, id, contents);
        ProbeRaises(StepRoom(s, Delete(id)).room, id, unused, contents, c);
      }
    }
  }

  lemma IndexedIsKeyed(s: RoomState)
    requires Indexed(s)
    ensures Keyed(s)
  {
  }

  lemma WrongId(s: RoomState, contents: Contents) returns (id: string)
    requires !RightList(s, contents)
    requires forall id :: HasContents(s, id, contents) ==> id in IconList(s, ContentId(contents))
    ensures var ids := IconList(s, ContentId(contents));
      id in ids && (HasContents(s, id, contents) ==> exists i, j :: 0 <= i < j < |ids| && ids[i] == ids[j] == id)
  {
    hide ContentId;
    var ids := IconList(s, ContentId(contents));
    if !NoDuplicates(ids) {
      var i, j :| 0 <= i < j < |ids| && ids[i] == ids[j];
      id := ids[i];
    } else {
      id :| id in ids && !HasContents(s, id, contents);
    }
  }

  lemma DeletedOnly(s: RoomState, id: string)
    ensures StepRoom(s, Delete(id)) == DeleteToken(s, id)
    ensures DeleteToken(s, id).Ok? ==>
      DeleteToken(s, id).room.tokens == s.tokens - {id} && DeleteToken(s, id).room.owner.Keys <= s.owner.Keys
  {
    hide UnitBlocks;
  }

  lemma MissingRaises(s: RoomState, id: string, contents: Contents)
    requires Keyed(s) && HasContents(s, id, contents) && id !in IconList(s, ContentId(contents))
    ensures Run(s, [Delete(id)]).Raised?
  {
    hide UnitBlocks, ContentId;
    assert [Delete(id)][..0] == [];
  }

  lemma TwoSteps(s: RoomState, y: seq<Action>)
    requires |y| == 2
    ensures Run(s, y) == if StepRoom(s, y[0]).Ok? then StepRoom(StepRoom(s, y[0]).room, y[1]) else Raised
  {
    hide StepRoom;
    assert y[..1][..0] == [] && y[..|y| - 1] == y[..1];
    assert Run(s, y[..1][..0]) == Ok(s);
  }

  lemma DeleteIsStable(b: Board, id: string)
    ensures Stable(b, [Delete(id)]) && Named([Delete(id)])
  {
  }

  lemma ProbeIsStable(s: RoomState, id: string, t: Token)
    requires Keyed(s) && t.id !in s.tokens && t.id != "" && NonEmpty(t.box)
    ensures var y := [Delete(id), Upsert(t)]; Stable(Pieces(s), y) && Named(y) && Boxed(y)
  {
    var b, y := Pieces(s), [Delete(id), Upsert(t)];
    PiecesFind(s, t.id);
    KeyedDistinct(s);
    LookupTaken(b, id, t.id);
    hide Find, Keyed, Take;
    assert y[..1] == [Delete(id)] && [Delete(id)][..0] == [];
    assert Fold(b, y[..1]) == Take(b, id);
    forall k | 0 <= k < |y| ensures StableStep(Fold(b, y[..k]), y[k]) {
    }
  }

  lemma KeyedDistinct(s: RoomState)
    requires Keyed(s)
    ensures Distinct(Pieces(s))
  {
    hide IndexOf;
  }

  // ----- The two conditions -----

  /** From any room whose cell tables agree, however it came about: no log of tokens with an id and a
      non-empty box that keeps the looks of live characters makes it raise if and only if every icon
      list holds exactly the live characters with its contents, each once, in any order. */
  lemma NeverRaisesIff(s: RoomState)
    requires Indexed(s)
    ensures (forall y: seq<Action> :: Named(y) && Boxed(y) && Stable(Pieces(s), y) ==> Run(s, y).Ok?) <==> RightLists(s)
  {
    IndexedIsKeyed(s);
    hide Indexed, Keyed, Stable, Run, RightList, Pieces;
    if RightLists(s) {
      forall y: seq<Action> | Named(y) && Boxed(y) && Stable(Pieces(s), y) ensures Run(s, y).Ok? {
        RightRun(s, y);
      }
    } else {
      var contents :| !RightList(s, contents);
      var y := WrongListRaises(s, contents);
    }
  }

  /** The update branch leaves the icon lists alone. */
  lemma {:induction false} UpdateInPlace(s: RoomState, t: Token)
    requires Indexed(s) && ValidPosition(s, t) && t.id in s.tokens
    ensures var s' := PutToken(RemovePositions(s, t.id), t);
      && StepRoom(s, Upsert(t)) == Ok(s')
      && Indexed(s') && s'.icons == s.icons && s'.tokens == s.tokens[t.id := t]
  {
    hide UnitBlocks;
    UpdateIndexed(s, t);
  }

  lemma UnstableSpoilsLists(s: RoomState, s': RoomState, t: Token)
    requires RightLists(s) && t.id in s.tokens && s'.icons == s.icons && s'.tokens == s.tokens[t.id := t]
    requires s.tokens[t.id].kind != t.kind || (t.kind.Character? && s.tokens[t.id].contents != t.contents)
    ensures !RightLists(s')
  {
    var contents := if t.kind.Character? then t.contents else s.tokens[t.id].contents;
    assert RightList(s, contents);
    assert HasContents(s, t.id, contents) != HasContents(s', t.id, contents);
    assert !RightList(s', contents);
  }

  /** From a room whose tables agree, one more action never raises itself. After it, no log that keeps
      the looks of live characters can make the room raise if and only if the action did not give a
      live token another kind or a live character other contents. */
  lemma {:induction false} RaisesLaterIff(s: RoomState, a: Action)
    requires Indexed(s) && RightLists(s) && (a.Upsert? ==> a.token.id != "")
    ensures StepRoom(s, a).Ok? && Indexed(StepRoom(s, a).room)
    ensures (forall y: seq<Action> ::
        Named(y) && Boxed(y) && Stable(Pieces(StepRoom(s, a).room), y) ==> Run(StepRoom(s, a).room, y).Ok?)
      <==> StableStep(Pieces(s), a)
  {
    hide Run, Stable, UnitBlocks, IndexOf, Find, Blocked, JoinIcon, RightLists;
    if StableStep(Pieces(s), a) {
      RightStep(s, a);
      StepRefines(s, a);
    } else {
      var t := a.token;
      ValidPositionIff(s, t);
      PiecesFind(s, t.id);
      UpdateInPlace(s, t);
      UnstableSpoilsLists(s, StepRoom(s, a).room, t);
    }
    NeverRaisesIff(StepRoom(s, a).room);
  }
}
