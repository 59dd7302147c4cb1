/** When compaction loses nothing at all: colours and icon lists included
    (api/src/room.py:9-18 and 54-78, api/src/compaction.py:96-100). */
module ExactCompaction {
  import opened Sequences
  import opened Components
  import opened Coloring
  import opened Board
  import opened RoomTables
  import opened RoomIcons
  import opened CompactedLog

  /** Two rooms nobody can tell apart: the icon tables may differ in empty lists only. */
  ghost predicate SameRoom(s: RoomState, s': RoomState)
  {
    && s' == s.(icons := s'.icons)
    && (forall contentId :: IconList(s, contentId) == IconList(s', contentId))
  }

  ghost predicate SameOutcome(o: Outcome, o': Outcome)
  {
    if o.Ok? then o'.Ok? && SameRoom(o.room, o'.room) else o'.Raised?
  }

  lemma DeleteSame(s: RoomState, s': RoomState, id: string)
    requires SameRoom(s, s')
    ensures SameOutcome(DeleteToken(s, id), DeleteToken(s', id))
  {
    hide UnitBlocks, IndexOf, Remove, ContentId;
    assert RemovePositions(s, id).owner == RemovePositions(s', id).owner;
    if id in s.tokens && s.tokens[id].kind.Character? {
      var contentId := ContentId(s.tokens[id].contents);
      assert IconList(s, contentId) == IconList(s', contentId);
      if s.tokens[id].id in IconList(s, contentId) {
        var o, o' := DeleteToken(s, id).room, DeleteToken(s', id).room;
        forall other ensures IconList(o, other) == IconList(o', other) {
          assert IconList(s, other) == IconList(s', other);
        }
        assert SameRoom(o, o');
      }
    } else {
      var o, o' := DeleteToken(s, id).room, DeleteToken(s', id).room;
      forall other ensures IconList(o, other) == IconList(o', other) {
        assert IconList(s, other) == IconList(s', other);
      }
    }
  }

  lemma PutSame(s: RoomState, s': RoomState, t: Token)
    requires SameRoom(s, s')
    ensures SameRoom(PutToken(s, t), PutToken(s', t))
  {
    hide UnitBlocks;
    forall other ensures IconList(PutToken(s, t), other) == IconList(PutToken(s', t), other) {
      assert IconList(s, other) == IconList(s', other);
    }
  }

  lemma JoinSame(s: RoomState, s': RoomState, t: Token)
    requires SameRoom(s, s')
    ensures SameOutcome(JoinIcon(s, t), JoinIcon(s', t))
  {
    hide UnitBlocks, AssignColors, ContentId, Paint, PutToken;
    var contentId := ContentId(t.contents);
    var ids := IconList(s, contentId);
    assert IconList(s', contentId) == ids;
    if ids == [] {
      IconsSame(s, s', contentId, [t.id], s.tokens);
      PutSame(s.(icons := s.icons[contentId := [t.id]]), s'.(icons := s'.icons[contentId := [t.id]]), t);
    } else if AllLive(s, ids) {
      assert Pick(s, ids) == Pick(s', ids);
      var painted := AssignColors([t] + Pick(s, ids));
      var tokens := Paint(s.tokens, ids, painted[1..]);
      IconsSame(s, s', contentId, ids + [t.id], tokens);
      PutSame(s.(icons := s.icons[contentId := ids + [t.id]], tokens := tokens),
              s'.(icons := s'.icons[contentId := ids + [t.id]], tokens := tokens),
              t.(color := painted[0].color));
    }
  }

  lemma IconsSame(s: RoomState, s': RoomState, contentId: string, ids: seq<string>, tokens: map<string, Token>)
    requires SameRoom(s, s')
    ensures SameRoom(s.(icons := s.icons[contentId := ids], tokens := tokens),
                     s'.(icons := s'.icons[contentId := ids], tokens := tokens))
  {
    var r, r' := s.(icons := s.icons[contentId := ids], tokens := tokens),
                 s'.(icons := s'.icons[contentId := ids], tokens := tokens);
    forall other ensures IconList(r, other) == IconList(r', other) {
      assert IconList(s, other) == IconList(s', other);
    }
  }

  lemma StepSame(s: RoomState, s': RoomState, a: Action)
    requires SameRoom(s, s')
    ensures SameOutcome(StepRoom(s, a), StepRoom(s', a))
  {
    hide UnitBlocks, IndexOf, JoinIcon, PutToken, DeleteToken;
    match a
    case Upsert(t) =>
      assert ValidPosition(s, t) == ValidPosition(s', t);
      assert RemovePositions(s, t.id).owner == RemovePositions(s', t.id).owner;
      JoinSame(s, s', t);
      PutSame(s, s', t);
      forall other
        ensures IconList(RemovePositions(s, t.id), other) == IconList(RemovePositions(s', t.id), other)
      {
        assert IconList(s, other) == IconList(s', other);
      }
      PutSame(RemovePositions(s, t.id), RemovePositions(s', t.id), t);
    case Delete(id) => DeleteSame(s, s', id);
    case PingAction(_) =>
  }

  lemma {:induction false} RunSame(s: RoomState, s': RoomState, log: seq<Action>)
    requires SameRoom(s, s')
    ensures SameOutcome(Run(s, log), Run(s', log))
  {
    if log != [] {
      var front := log[..|log| - 1];
      RunSame(s, s', front);
      if Run(s, front).Ok? {
        StepSame(Run(s, front).room, Run(s', front).room, log[|log| - 1]);
      }
    }
  }

  /** The older characters that look like the k-th token of the room. */
  ghost function Older(s: RoomState, k: nat): seq<string>
    requires Keyed(s) && k < |s.order|
  {
    CharactersWith(s.order[..k], s.tokens, ContentId(s.tokens[s.order[k]].contents))
  }

  /** Re-creating token k among its elders hands out no colour: none of them is bare, or they
      already use up the palette. */
  ghost predicate SettledAt(s: RoomState, k: nat)
    requires Keyed(s) && k < |s.order|
  {
    var t := s.tokens[s.order[k]];
    t.kind.Character? && Older(s, k) != [] && AllLive(s, Older(s, k)) ==>
      var list := [t] + Pick(s, Older(s, k));
      BareCount(list) == 0 || Free(list) == []
  }

  ghost predicate SettledUpTo(s: RoomState, n: nat)
    requires Keyed(s) && n <= |s.order|
  {
    forall k :: 0 <= k < n ==> SettledAt(s, k)
  }

  ghost predicate Settled(s: RoomState)
    requires Keyed(s)
  {
    SettledUpTo(s, |s.order|)
  }

  /** The room after re-creating the first k tokens of s. */
  ghost function Rebuilt(s: RoomState, k: nat): Outcome
    requires Keyed(s) && k <= |s.order|
  {
    CreateRoom(Upserts(Values(s))[..k])
  }

  /** Some token is bare in s and coloured in r. */
  ghost predicate Tinted(s: RoomState, r: RoomState)
  {
    exists id :: id in s.tokens && id in r.tokens && s.tokens[id].color.None? && r.tokens[id].color.Some?
  }

  ghost predicate Agrees(s: RoomState, r: RoomState)
  {
    forall id :: id in r.tokens ==> id in s.tokens && r.tokens[id] == s.tokens[id]
  }

  lemma {:induction false} RebuiltShape(s: RoomState, k: nat)
    requires Indexed(s) && k <= |s.order|
    ensures Rebuilt(s, k).Ok?
    ensures var r := Rebuilt(s, k).room;
      && Indexed(r) && Listed(r)
      && r.order == s.order[..k]
      && (forall id :: id in r.tokens ==> id in s.tokens && Bare(r.tokens[id]) == Bare(s.tokens[id]))
  {
    IndexedIsKeyed(s);
    PiecesDistinct(s);
    ValuesPieces(s);
    UpsertsNamed(s);
    hide Indexed, Keyed, Listed, CreateRoom, Replay;
    var tokens := Values(s)[..k];
    assert Upserts(Values(s))[..k] == Upserts(tokens);
    assert Bares(tokens) == Pieces(s)[..k];
    UpsertsAreStable(tokens);
    assert Named(Upserts(tokens));
    StableLogsNeverRaise(Upserts(tokens));
    ReplayUpserts(tokens);
    var r := Rebuilt(s, k).room;
    IndexedIsKeyed(r);
    SameShape(s, r, k);
  }

  lemma SameShape(s: RoomState, r: RoomState, k: nat)
    requires Keyed(s) && Keyed(r) && k <= |s.order| && Pieces(r) == Pieces(s)[..k]
    ensures r.order == s.order[..k]
    ensures forall id :: id in r.tokens ==> id in s.tokens && Bare(r.tokens[id]) == Bare(s.tokens[id])
  {
    forall i | 0 <= i < |r.order| ensures r.order[i] == s.order[i] {
      assert Pieces(r)[i].id == r.order[i] && Pieces(s)[i].id == s.order[i];
    }
    forall id | id in r.tokens ensures id in s.tokens && Bare(r.tokens[id]) == Bare(s.tokens[id]) {
      var i := IndexOf(r.order, id);
      assert Pieces(r)[i] == Pieces(s)[i];
    }
  }

  /** r' is r with token k of s re-created; its elders are found in the list of its icon. */
  ghost predicate Extends(s: RoomState, r: RoomState, r': RoomState, k: nat)
    requires Keyed(s) && k < |s.order|
  {
    var t := s.tokens[s.order[k]];
    && t.id !in r.tokens
    && Ok(r') == (if t.kind.Character? then JoinIcon(r, t) else Ok(PutToken(r, t)))
    && (t.kind.Character? ==>
          IconList(r, ContentId(t.contents)) == Older(s, k) && AllLive(r, Older(s, k)) && AllLive(s, Older(s, k)))
  }

  lemma RebuildNext(s: RoomState, k: nat)
    requires Indexed(s) && k < |s.order|
    ensures Rebuilt(s, k).Ok? && Rebuilt(s, k + 1).Ok?
    ensures Extends(s, Rebuilt(s, k).room, Rebuilt(s, k + 1).room, k)
    ensures Keyed(Rebuilt(s, k).room) && Listed(Rebuilt(s, k).room)
  {
    hide UnitBlocks, IndexOf, Blocked, AssignColors, Listed, IconList, OwnerAgrees, CellsAgree;
    RebuiltShape(s, k);
    RebuiltShape(s, k + 1);
    var r, t := Rebuilt(s, k).room, s.tokens[s.order[k]];
    var log := Upserts(Values(s));
    assert log[..k + 1][..k] == log[..k];
    assert Rebuilt(s, k + 1) == StepRoom(r, Upsert(t));
    NextIsNew(s, r, k);
    if t.kind.Character? {
      OlderListed(s, r, k);
    }
  }

  lemma {:induction false} NextIsNew(s: RoomState, r: RoomState, k: nat)
    requires Indexed(s) && Indexed(r) && k < |s.order| && r.order == s.order[..k]
    requires forall id :: id in r.tokens ==> id in s.tokens && Bare(r.tokens[id]) == Bare(s.tokens[id])
    ensures s.order[k] !in r.tokens && ValidPosition(r, s.tokens[s.order[k]])
  {
    hide UnitBlocks;
    var t := s.tokens[s.order[k]];
    assert NoDuplicates(s.order) && IndexOf(s.order[..k], t.id) == k;
    forall id | id in r.tokens ensures !Overlap(r.tokens[id].box, t.box) {
      OwnersDisjoint(s.tokens, s.owner, id, t.id);
    }
    BlockedIff(r, t.box);
    ValidPositionIff(r, t);
  }

  lemma OlderListed(s: RoomState, r: RoomState, k: nat)
    requires Keyed(s) && Keyed(r) && Listed(r) && k < |s.order| && r.order == s.order[..k]
    requires forall id :: id in r.tokens ==> id in s.tokens && Bare(r.tokens[id]) == Bare(s.tokens[id])
    ensures IconList(r, ContentId(s.tokens[s.order[k]].contents)) == Older(s, k)
    ensures AllLive(r, Older(s, k)) && AllLive(s, Older(s, k))
  {
    var contentId := ContentId(s.tokens[s.order[k]].contents);
    forall i | 0 <= i < |r.order|
      ensures IsCharacterWith(r.tokens, r.order[i], contentId) <==> IsCharacterWith(s.tokens, r.order[i], contentId)
    {
      assert Bare(r.tokens[r.order[i]]) == Bare(s.tokens[r.order[i]]);
    }
    CharactersCongruent(r.order, r.tokens, s.tokens, contentId);
    ListsAreLive(r, contentId);
  }

  lemma {:induction false} PaintSame(tokens: map<string, Token>, ids: seq<string>, painted: seq<Token>)
    requires |ids| == |painted|
    requires forall i :: 0 <= i < |ids| ==> ids[i] in tokens && painted[i] == tokens[ids[i]]
    ensures Paint(tokens, ids, painted) == tokens
  {
    if ids != [] {
      var n := |ids| - 1;
      PaintSame(tokens, ids[..n], painted[..n]);
    }
  }

  lemma {:induction false} PaintGives(tokens: map<string, Token>, ids: seq<string>, painted: seq<Token>, i: nat)
    requires |ids| == |painted| && NoDuplicates(ids) && i < |ids|
    ensures ids[i] in Paint(tokens, ids, painted) && Paint(tokens, ids, painted)[ids[i]] == painted[i]
  {
    var n := |ids| - 1;
    if i < n {
      PaintGives(tokens, ids[..n], painted[..n], i);
    }
  }

  /** Joining a list that needs no colour leaves every other token as it is. */
  lemma JoinSettled(r: RoomState, t: Token)
    requires AllLive(r, IconList(r, ContentId(t.contents))) && t.id !in r.tokens
    requires IconList(r, ContentId(t.contents)) != [] ==>
      AssignColors([t] + Pick(r, IconList(r, ContentId(t.contents)))) ==
        [t] + Pick(r, IconList(r, ContentId(t.contents)))
    ensures JoinIcon(r, t).Ok? && JoinIcon(r, t).room.tokens == r.tokens[t.id := t]
  {
    hide UnitBlocks, AssignColors, ContentId;
    var ids := IconList(r, ContentId(t.contents));
    if ids != [] {
      var list := [t] + Pick(r, ids);
      assert list[1..] == Pick(r, ids);
      PaintSame(r.tokens, ids, list[1..]);
    }
  }

  /** Joining a list that needs a colour gives one to a bare token. */
  lemma JoinTints(r: RoomState, t: Token)
    requires var ids := IconList(r, ContentId(t.contents));
      ids != [] && AllLive(r, ids) && NoDuplicates(ids) && t.id !in r.tokens
      && AssignColors([t] + Pick(r, ids)) != [t] + Pick(r, ids)
    ensures JoinIcon(r, t).Ok?
    ensures var r' := JoinIcon(r, t).room;
      exists id :: id in r'.tokens && r'.tokens[id].color.Some?
        && (if id == t.id then t.color.None? else id in r.tokens && r.tokens[id].color.None?)
  {
    hide UnitBlocks, AssignColors, ContentId;
    var ids := IconList(r, ContentId(t.contents));
    var list := [t] + Pick(r, ids);
    var painted := AssignColors(list);
    AssignColorsGuarantee(list);
    var i :| 0 <= i < |list| && painted[i] != list[i];
    assert list[i].color.None? && painted[i].color.Some?;
    var r' := JoinIcon(r, t).room;
    if i == 0 {
      assert r'.tokens[t.id].color.Some?;
    } else {
      PaintGives(r.tokens, ids, painted[1..], i - 1);
      assert list[i] == r.tokens[ids[i - 1]];
      assert r'.tokens[ids[i - 1]].color.Some?;
    }
  }

  /** A colour, once given, stays while new tokens are added. */
  lemma JoinKeepsColors(r: RoomState, t: Token, id: string)
    requires AllLive(r, IconList(r, ContentId(t.contents))) && t.id !in r.tokens
    requires id in r.tokens && r.tokens[id].color.Some?
    ensures JoinIcon(r, t).Ok? && id in JoinIcon(r, t).room.tokens && JoinIcon(r, t).room.tokens[id].color.Some?
  {
    hide UnitBlocks, AssignColors, ContentId;
    var ids := IconList(r, ContentId(t.contents));
    if ids != [] {
      var list := [t] + Pick(r, ids);
      var painted := AssignColors(list);
      AssignColorsGuarantee(list);
      forall i | 0 <= i < |ids| ensures painted[1..][i].color.None? ==> r.tokens[ids[i]].color.None? {
        assert list[i + 1] == r.tokens[ids[i]];
      }
      PaintKeepsColors(r.tokens, ids, painted[1..], id);
    }
  }

  lemma {:induction false} PaintKeepsColors(
    tokens: map<string, Token>, ids: seq<string>, painted: seq<Token>, id: string)
    requires |ids| == |painted| && id in tokens && tokens[id].color.Some?
    requires forall i :: 0 <= i < |ids| && ids[i] in tokens && painted[i].color.None? ==> tokens[ids[i]].color.None?
    ensures id in Paint(tokens, ids, painted) && Paint(tokens, ids, painted)[id].color.Some?
  {
    if ids != [] {
      var n := |ids| - 1;
      PaintKeepsColors(tokens, ids[..n], painted[..n], id);
    }
  }

  lemma {:induction false} RebuildFromSettled(s: RoomState, r: RoomState, r': RoomState, k: nat)
    requires Keyed(s) && k < |s.order| && Extends(s, r, r', k) && Agrees(s, r)
    requires Keyed(r) && Listed(r)
    ensures if SettledAt(s, k) then Agrees(s, r') else Tinted(s, r')
  {
    hide UnitBlocks, IndexOf, AssignColors, ContentId, Older;
    var t := s.tokens[s.order[k]];
    assert t.id == s.order[k];
    if t.kind.Character? {
      var ids := Older(s, k);
      assert Pick(r, ids) == Pick(s, ids);
      AssignColorsIsIdentityIff([t] + Pick(s, ids));
      if SettledAt(s, k) {
        JoinSettled(r, t);
      } else {
        CharactersMembersIcon(r, ContentId(t.contents));
        JoinTints(r, t);
      }
    }
  }

  lemma CharactersMembersIcon(r: RoomState, contentId: string)
    requires Keyed(r) && Listed(r)
    ensures NoDuplicates(IconList(r, contentId))
    ensures forall id :: id in IconList(r, contentId) ==> IsCharacterWith(r.tokens, id, contentId)
  {
    CharactersMembers(r.order, r.tokens, contentId);
  }

  lemma {:induction false} RebuildFromTinted(s: RoomState, r: RoomState, r': RoomState, k: nat)
    requires Keyed(s) && k < |s.order| && Extends(s, r, r', k) && Tinted(s, r)
    ensures Tinted(s, r')
  {
    hide UnitBlocks, IndexOf, AssignColors, ContentId, JoinIcon, Older;
    var t := s.tokens[s.order[k]];
    var id :| id in s.tokens && id in r.tokens && s.tokens[id].color.None? && r.tokens[id].color.Some?;
    if t.kind.Character? {
      JoinKeepsColors(r, t, id);
    }
    assert id in r'.tokens && r'.tokens[id].color.Some?;
  }

  lemma RebuiltNothing(s: RoomState)
    requires Keyed(s)
    ensures Rebuilt(s, 0).Ok? && Agrees(s, Rebuilt(s, 0).room)
  {
    assert Upserts(Values(s))[..0] == [];
  }

  /** While the tokens re-created so far are settled they come out unchanged; as soon as one is
      not, a token that was bare has a colour, for good. */
  lemma {:induction false} RebuiltColors(s: RoomState, k: nat)
    requires Indexed(s) && k <= |s.order|
    ensures Rebuilt(s, k).Ok?
    ensures if SettledUpTo(s, k) then Agrees(s, Rebuilt(s, k).room) else Tinted(s, Rebuilt(s, k).room)
  {
    assert Keyed(s);
    hide Indexed, Keyed, Listed, SettledAt, Tinted, Extends;
    hide Rebuilt, Agrees;
    if k == 0 {
      RebuiltNothing(s);
    } else {
      RebuiltColors(s, k - 1);
      RebuildNext(s, k - 1);
      var r, r' := Rebuilt(s, k - 1).room, Rebuilt(s, k).room;
      if SettledUpTo(s, k - 1) {
        RebuildFromSettled(s, r, r', k - 1);
      } else {
        RebuildFromTinted(s, r, r', k - 1);
      }
    }
  }

  lemma {:induction false} IndexesDetermined(s: RoomState, r: RoomState)
    requires Indexed(s) && Indexed(r) && s.tokens == r.tokens
    ensures s.cells == r.cells && s.owner == r.owner
  {
    hide UnitBlocks, Keyed;
    forall c | c in s.owner ensures c in r.owner && r.owner[c] == s.owner[c] {
    }
    forall c | c in r.owner ensures c in s.owner && r.owner[c] == s.owner[c] {
    }
  }

  lemma SameTokens(s: RoomState, r: RoomState)
    requires Keyed(s) && Keyed(r) && r.order == s.order && Agrees(s, r)
    ensures s.tokens == r.tokens
  {
    forall id | id in s.tokens ensures id in r.tokens {
      assert r.order[IndexOf(s.order, id)] == id;
    }
  }

  lemma ExactMeansSettled(s: RoomState, r: RoomState)
    requires Indexed(s) && Listed(r) && SameRoom(s, r)
    requires if Settled(s) then Agrees(s, r) else Tinted(s, r)
    ensures Listed(s) && Settled(s)
  {
    hide UnitBlocks, CharactersWith, SettledAt, Indexed;
    assert !Tinted(s, r);
  }

  lemma {:induction false} SettledMeansExact(s: RoomState, r: RoomState)
    requires Indexed(s) && Indexed(r) && Listed(r) && Listed(s)
    requires r.order == s.order && Agrees(s, r)
    ensures SameRoom(s, r)
  {
    SameTokens(s, r);
    IndexesDetermined(s, r);
    hide CharactersWith, Indexed;
    assert forall contentId :: IconList(s, contentId) == IconList(r, contentId);
  }

  /** When compaction is exact: replaying the compacted log rebuilds the very same room, colours and
      icon lists included, if and only if the room's icon lists are right and every token is settled
      among its elders. */
  lemma {:induction false} CompactionExactIff(s: RoomState)
    requires Indexed(s)
    ensures CreateRoom(Upserts(Values(s))).Ok?
    ensures SameRoom(s, CreateRoom(Upserts(Values(s))).room) <==> Listed(s) && Settled(s)
  {
    hide UnitBlocks, CharactersWith, SettledAt, Blocked, Agrees, Tinted, Listed, SameRoom;
    var n := |s.order|;
    assert Upserts(Values(s))[..n] == Upserts(Values(s)) && s.order[..n] == s.order;
    RebuiltShape(s, n);
    RebuiltColors(s, n);
    var r := Rebuilt(s, n).room;
    if SameRoom(s, r) {
      ExactMeansSettled(s, r);
    }
    if Listed(s) && Settled(s) {
      SettledMeansExact(s, r);
    }
  }

  // ----- A condition on logs under which compaction is exact -----

  /** An upsert of a live token carries its current kind and, of a character, its current contents and
      colour; and afterwards no icon has more than eight characters. */
  ghost predicate FaithfulStep(s: RoomState, a: Action)
  {
    && (a.Upsert? && ValidPosition(s, a.token) && a.token.id in s.tokens ==>
          var t := s.tokens[a.token.id];
          && t.kind == a.token.kind
          && (t.kind.Character? ==> t.contents == a.token.contents && t.color == a.token.color))
    && (StepRoom(s, a).Ok? ==> AtMostEight(StepRoom(s, a).room))
  }

  ghost predicate AtMostEight(s: RoomState)
  {
    forall contentId :: |IconList(s, contentId)| <= 8
  }

  ghost predicate Faithful(log: seq<Action>)
  {
    log == [] ||
    (var front := log[..|log| - 1];
     Faithful(front) && (CreateRoom(front).Ok? ==> FaithfulStep(CreateRoom(front).room, log[|log| - 1])))
  }

  /** Characters that share an icon all have a colour. */
  ghost predicate SharedAreColored(s: RoomState)
  {
    forall contentId, i :: 0 <= i < |IconList(s, contentId)| && 1 < |IconList(s, contentId)| ==>
      IsColored(s, IconList(s, contentId)[i])
  }

  ghost predicate IsColored(s: RoomState, id: string)
  {
    id in s.tokens && s.tokens[id].color.Some?
  }

  /** The list did not grow, and none of its tokens lost its colour. */
  ghost predicate ListShrinks(s: RoomState, s': RoomState, contentId: string)
  {
    && |IconList(s', contentId)| <= |IconList(s, contentId)|
    && (forall id :: id in IconList(s', contentId) ==>
          id in IconList(s, contentId) && (IsColored(s, id) ==> IsColored(s', id)))
  }

  lemma SharedStayColored(s: RoomState, s': RoomState)
    requires SharedAreColored(s)
    requires forall contentId :: ListShrinks(s, s', contentId)
    ensures SharedAreColored(s')
  {
    hide IconList, IsColored;
    forall contentId, i | 0 <= i < |IconList(s', contentId)| && 1 < |IconList(s', contentId)|
      ensures IsColored(s', IconList(s', contentId)[i])
    {
      var id := IconList(s', contentId)[i];
      assert ListShrinks(s, s', contentId);
      assert id in IconList(s', contentId);
      var k :| 0 <= k < |IconList(s, contentId)| && IconList(s, contentId)[k] == id;
      assert IsColored(s, IconList(s, contentId)[k]);
    }
  }

  lemma JoinColors(s: RoomState, t: Token)
    requires AllLive(s, IconList(s, ContentId(t.contents))) && t.id !in s.tokens
    requires NoDuplicates(IconList(s, ContentId(t.contents)))
    requires SharedAreColored(s) && |IconList(s, ContentId(t.contents))| < 8
    ensures JoinIcon(s, t).Ok? && SharedAreColored(JoinIcon(s, t).room)
  {
    hide UnitBlocks, AssignColors, ContentId, Paint;
    var contentId := ContentId(t.contents);
    var ids := IconList(s, contentId);
    var s' := JoinIcon(s, t).room;
    forall other, i | 0 <= i < |IconList(s', other)| && 1 < |IconList(s', other)|
      ensures IsColored(s', IconList(s', other)[i])
    {
      if other == contentId {
        JoinedIsColored(s, t, i);
      } else {
        assert IconList(s', other) == IconList(s, other);
        assert IsColored(s, IconList(s, other)[i]);
        JoinKeepsColors(s, t, IconList(s, other)[i]);
      }
    }
  }

  lemma JoinedIsColored(s: RoomState, t: Token, i: nat)
    requires var ids := IconList(s, ContentId(t.contents));
      AllLive(s, ids) && NoDuplicates(ids) && t.id !in s.tokens && 0 < |ids| < 8 && i <= |ids|
    ensures JoinIcon(s, t).Ok?
    ensures IsColored(JoinIcon(s, t).room, (IconList(s, ContentId(t.contents)) + [t.id])[i])
  {
    hide UnitBlocks, AssignColors, ContentId, Paint, BareCount;
    var ids := IconList(s, ContentId(t.contents));
    var list := [t] + Pick(s, ids);
    var painted := AssignColors(list);
    AssignColorsGuarantee(list);
    NoBareMeansColored(painted);
    if i < |ids| {
      PaintGives(s.tokens, ids, painted[1..], i);
      assert painted[1..][i].color.Some?;
    }
  }

  lemma DeleteColors(s: RoomState, id: string)
    requires Keyed(s) && Listed(s) && SharedAreColored(s)
    requires DeleteToken(s, id).Ok?
    ensures SharedAreColored(DeleteToken(s, id).room)
  {
    var s' := DeleteToken(s, id).room;
    hide IconList, IsColored, DeleteToken, CharactersWith;
    forall contentId ensures ListShrinks(s, s', contentId) {
      DeletedLists(s, id, contentId);
      DeletedColors(s, id);
    }
    SharedStayColored(s, s');
  }

  lemma IndexedIsKeyed(s: RoomState)
    requires Indexed(s)
    ensures Keyed(s)
  {
  }

  lemma DeletedColors(s: RoomState, id: string)
    requires DeleteToken(s, id).Ok?
    ensures forall other :: other != id && IsColored(s, other) ==> IsColored(DeleteToken(s, id).room, other)
  {
    hide Remove, IconList, ContentId;
  }

  lemma DeletedLists(s: RoomState, id: string, contentId: string)
    requires Keyed(s) && Listed(s) && DeleteToken(s, id).Ok?
    ensures var s' := DeleteToken(s, id).room;
      && |IconList(s', contentId)| <= |IconList(s, contentId)|
      && (forall x :: x in IconList(s', contentId) ==> x in IconList(s, contentId) && x != id)
  {
    hide UnitBlocks, IndexOf, Remove, CharactersWith;
    CharactersMembers(s.order, s.tokens, contentId);
    var ids := IconList(s, contentId);
    RemoveFromDistinct(ids, id);
  }

  /** A refused upsert, a move and a new floor tile touch no list, and a move keeps the colour. */
  lemma QuietUpsertColors(s: RoomState, t: Token)
    requires SharedAreColored(s) && Keyed(s) && Listed(s) && FaithfulStep(s, Upsert(t))
    requires ValidPosition(s, t) && t.id !in s.tokens ==> t.kind.Floor?
    ensures CreateOrUpdateToken(s, t).Ok? && SharedAreColored(CreateOrUpdateToken(s, t).room)
  {
    hide UnitBlocks, AtMostEight, ValidPosition, JoinIcon, CharactersWith, Listed;
    var s' := CreateOrUpdateToken(s, t).room;
    forall contentId ensures ListShrinks(s, s', contentId) {
      assert IconList(s', contentId) == IconList(s, contentId);
      CharactersMembersIcon(s, contentId);
      forall id | id in IconList(s, contentId) && IsColored(s, id) ensures IsColored(s', id) {
        assert s.tokens[id].kind.Character?;
        assert s'.tokens[id].color == s.tokens[id].color;
      }
    }
    SharedStayColored(s, s');
  }

  lemma NewCharacterColors(s: RoomState, t: Token)
    requires SharedAreColored(s) && Keyed(s) && Listed(s) && FaithfulStep(s, Upsert(t))
    requires ValidPosition(s, t) && t.id !in s.tokens && t.kind.Character?
    ensures CreateOrUpdateToken(s, t).Ok? && SharedAreColored(CreateOrUpdateToken(s, t).room)
  {
    ListsAreLive(s, ContentId(t.contents));
    CharactersMembersIcon(s, ContentId(t.contents));
    JoinIconShape(s, t);
    assert |IconList(JoinIcon(s, t).room, ContentId(t.contents))| <= 8;
    JoinColors(s, t);
  }

  lemma {:induction false} FaithfulStepColors(s: RoomState, a: Action)
    requires Indexed(s) && Listed(s) && SharedAreColored(s) && (a.Upsert? ==> a.token.id != "")
    requires FaithfulStep(s, a)
    ensures StepRoom(s, a).Ok?
    ensures Indexed(StepRoom(s, a).room) && Listed(StepRoom(s, a).room) && SharedAreColored(StepRoom(s, a).room)
  {
    hide FaithfulStep, SharedAreColored, Listed, ValidPosition, CreateOrUpdateToken, DeleteToken, Indexed;
    IndexedIsKeyed(s);
    FaithfulIsStable(s, a);
    StepListed(s, a);
    StepRefines(s, a);
    match a
    case Upsert(t) =>
      if ValidPosition(s, t) && t.id !in s.tokens && t.kind.Character? {
        NewCharacterColors(s, t);
      } else {
        QuietUpsertColors(s, t);
      }
    case Delete(id) => DeleteColors(s, id);
    case PingAction(_) =>
  }

  lemma {:induction false} FaithfulIsStable(s: RoomState, a: Action)
    requires Indexed(s) && FaithfulStep(s, a)
    ensures StableStep(Pieces(s), a)
  {
    hide UnitBlocks, StepRoom, AtMostEight;
    if a.Upsert? {
      ValidPositionIff(s, a.token);
      PiecesFind(s, a.token.id);
    }
  }

  lemma {:induction false} FaithfulLogs(log: seq<Action>)
    requires Named(log) && Faithful(log)
    ensures CreateRoom(log).Ok?
    ensures Indexed(CreateRoom(log).room) && Listed(CreateRoom(log).room) && SharedAreColored(CreateRoom(log).room)
  {
    if log == [] {
      EmptyRoomListed();
    } else {
      hide FaithfulStep, Indexed, Listed, SharedAreColored, StepRoom;
      FaithfulLogs(log[..|log| - 1]);
      FaithfulStepColors(CreateRoom(log[..|log| - 1]).room, log[|log| - 1]);
    }
  }

  lemma {:induction false} ColoredIsSettled(s: RoomState)
    requires Indexed(s) && Listed(s) && SharedAreColored(s)
    ensures Settled(s)
  {
    forall k | 0 <= k < |s.order| ensures SettledAt(s, k) {
      ColoredIsSettledAt(s, k);
    }
  }

  lemma ColoredIsSettledAt(s: RoomState, k: nat)
    requires Keyed(s) && Listed(s) && SharedAreColored(s) && k < |s.order|
    ensures SettledAt(s, k)
  {
    hide ContentId, BareCount, Free, IconList, Older, SharedAreColored, Listed;
    var t := s.tokens[s.order[k]];
    hide Keyed;
    var older := Older(s, k);
    if t.kind.Character? && older != [] && AllLive(s, older) {
      OlderInList(s, k);
      ListIsColored(s, ContentId(t.contents));
      AllColored(s, s.order[k], older);
    }
  }

  lemma AllColored(s: RoomState, id: string, older: seq<string>)
    requires AllLive(s, older) && IsColored(s, id) && forall other :: other in older ==> IsColored(s, other)
    ensures BareCount([s.tokens[id]] + Pick(s, older)) == 0
  {
    hide BareCount;
    var list := [s.tokens[id]] + Pick(s, older);
    forall i | 0 <= i < |list| ensures list[i].color.Some? {
      assert i > 0 ==> older[i - 1] in older && list[i] == s.tokens[older[i - 1]];
    }
    NoBareMeansColored(list);
  }

  lemma ListIsColored(s: RoomState, contentId: string)
    requires SharedAreColored(s) && 1 < |IconList(s, contentId)|
    ensures forall id :: id in IconList(s, contentId) ==> IsColored(s, id)
  {
    hide IconList, IsColored;
  }

  lemma OlderInList(s: RoomState, k: nat)
    requires Keyed(s) && Listed(s) && k < |s.order|
    requires s.tokens[s.order[k]].kind.Character? && Older(s, k) != []
    ensures var ids := IconList(s, ContentId(s.tokens[s.order[k]].contents));
      && 1 < |ids| && s.order[k] in ids
      && (forall id :: id in Older(s, k) ==> id in ids)
  {
    hide IndexOf;
    var contentId := ContentId(s.tokens[s.order[k]].contents);
    hide ContentId;
    CharactersPrefix(s.order, s.tokens, contentId, k);
    CharactersSnoc(s.order[..k], s.order[k], s.tokens, contentId);
    assert s.order[..k + 1] == s.order[..k] + [s.order[k]];
    CharactersPrefix(s.order, s.tokens, contentId, k + 1);
    var older, ids := Older(s, k), IconList(s, contentId);
    assert older + [s.order[k]] <= ids;
    assert ids[|older|] == s.order[k];
  }

  lemma {:induction false} CharactersPrefix(order: seq<string>, tokens: map<string, Token>, contentId: string, k: nat)
    requires k <= |order|
    ensures CharactersWith(order[..k], tokens, contentId) <= CharactersWith(order, tokens, contentId)
  {
    if k < |order| {
      CharactersPrefix(order[..|order| - 1], tokens, contentId, k);
      assert order[..|order| - 1][..k] == order[..k];
    } else {
      assert order[..k] == order;
    }
  }

  /** When each upsert of a live token carries that token's kind and, of a character, its current
      colour and contents, and no icon ever has more than eight characters, compaction is exact for every suffix: the
      compacted log and the full log either both raise or make the same room, colours, order and
      icon lists included. */
  lemma CompactionExact(prefix: seq<Action>, suffix: seq<Action>)
    requires Named(prefix) && Faithful(prefix)
    ensures Compacted(prefix).Some?
    ensures SameOutcome(CreateRoom(prefix + suffix), CreateRoom(Compacted(prefix).value + suffix))
  {
    FaithfulLogs(prefix);
    var s := CreateRoom(prefix).room;
    ColoredIsSettled(s);
    CompactionExactIff(s);
    var compacted := Compacted(prefix).value;
    RunSame(s, CreateRoom(compacted).room, suffix);
    RunConcat(EMPTY_ROOM, prefix, suffix);
    RunConcat(EMPTY_ROOM, compacted, suffix);
  }
}
