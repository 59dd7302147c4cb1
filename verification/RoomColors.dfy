/** The colours of a room (api/src/room.py:54-78): a new character and those that share its icon are
    coloured together, the new one first; nothing else ever gets or loses a colour, except that a moved
    token brings its own. */
module RoomColors {
  import opened Sequences
  import opened Components
  import opened Coloring
  import opened RoomTables
  import opened RoomIcons
  import ColoringOrder
  import ExactCompaction

  /** The new character, then the live ones with its icon, oldest first. */
  ghost function Sharing(s: RoomState, t: Token, ids: seq<string>): seq<Token>
    requires AllLive(s, ids)
  {
    [t] + Pick(s, ids)
  }

  lemma JoinColors(s: RoomState, t: Token)
    requires Keyed(s) && Listed(s) && t.id !in s.tokens && IconList(s, ContentId(t.contents)) != []
    ensures var ids := IconList(s, ContentId(t.contents));
      && AllLive(s, ids) && JoinIcon(s, t).Ok?
      && var s' := JoinIcon(s, t).room;
         && AllLive(s', ids) && t.id in s'.tokens
         && Sharing(s', s'.tokens[t.id], ids) == AssignColors(Sharing(s, t, ids))
         && (forall id :: id in s.tokens && id !in ids ==> id in s'.tokens && s'.tokens[id] == s.tokens[id])
  {
    hide UnitBlocks, AssignColors, Listed, Keyed, ContentId;
    var ids := IconList(s, ContentId(t.contents));
    ListsAreLive(s, ContentId(t.contents));
    ListedMeansOnce(s, ContentId(t.contents));
    JoinIconShape(s, t);
    PaintedTokens(s, t, ids);
    var s' := JoinIcon(s, t).room;
    var painted := AssignColors(Sharing(s, t, ids));
    forall i | 0 <= i < |ids| ensures ids[i] in s'.tokens && s'.tokens[ids[i]] == painted[i + 1] {
      ExactCompaction.PaintGives(s.tokens, ids, painted[1..], i);
    }
  }

  /** Which tokens an upsert colours: none when it is refused; when it joins others with its icon, the
      new one first and then they, oldest first, bare ones taking the first free palette entry in turn;
      and none in all other cases. */
  lemma UpsertColors(s: RoomState, t: Token)
    requires Indexed(s) && Listed(s)
    ensures CreateOrUpdateToken(s, t).Ok?
    ensures var s', ids := CreateOrUpdateToken(s, t).room, IconList(s, ContentId(t.contents));
      if !ValidPosition(s, t) then s'.tokens == s.tokens
      else if t.id in s.tokens || t.kind.Floor? || ids == [] then s'.tokens == s.tokens[t.id := t]
      else
        && AllLive(s, ids) && AllLive(s', ids) && t.id in s'.tokens
        && (forall id :: id in s.tokens && id !in ids ==> id in s'.tokens && s'.tokens[id] == s.tokens[id])
        && (var before, after := Sharing(s, t, ids), Sharing(s', s'.tokens[t.id], ids);
            forall i :: 0 <= i < |after| ==>
              if before[i].color.Some? then after[i] == before[i]
              else after[i] == before[i].(color := after[i].color) && ColoringOrder.HasFirstFree(before, after, i))
  {
    hide UnitBlocks, AssignColors, Listed, CellsAgree, OwnerAgrees, ContentId, ValidPosition;
    if ValidPosition(s, t) && t.id !in s.tokens && t.kind.Character? && IconList(s, ContentId(t.contents)) != [] {
      JoinColors(s, t);
      var ids := IconList(s, ContentId(t.contents));
      var s' := JoinIcon(s, t).room;
      ColoringOrder.AssignColorsIff(Sharing(s, t, ids), Sharing(s', s'.tokens[t.id], ids));
    }
  }
}
