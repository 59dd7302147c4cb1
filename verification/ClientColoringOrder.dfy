/** Which colour a client hands to whom: web/src/ui/board/board-state.ts:111-131. */
module ClientColoringOrder {
  import opened Sequences
  import opened Components
  import opened ClientTables
  import opened ClientColoring
  import opened ClientMeaning
  import Coloring
  import PosStr
  import ColoringOrder

  ghost function CarriedBy(entities: map<string, Entity>, ids: seq<string>): set<Color>
  {
    set i | 0 <= i < |ids| && ColorOf(entities, ids[i]).Some? :: ColorOf(entities, ids[i]).value
  }

  lemma CarriedByNext(entities: map<string, Entity>, ids: seq<string>)
    requires ids != []
    ensures CarriedBy(entities, ids) ==
      if ColorOf(entities, ids[0]).None? then CarriedBy(entities, ids[1..])
      else CarriedBy(entities, ids[1..]) + {ColorOf(entities, ids[0]).value}
  {
    hide ColorOf;
    assert forall i :: 0 < i < |ids| ==> ids[i] == ids[1..][i - 1];
  }

  lemma {:induction false} WithoutTwice(p: seq<Color>, a: set<Color>, b: set<Color>)
    ensures Coloring.Without(Coloring.Without(p, a), b) == Coloring.Without(p, b + a)
  {
    if p != [] {
      WithoutTwice(p[1..], a, b);
    }
  }

  lemma {:induction false} WithoutFront(p: seq<Color>, n: nat, used: set<Color>)
    requires n <= |p|
    ensures Coloring.Without(p[..n], used) <= Coloring.Without(p, used)
  {
    if n > 0 {
      WithoutFront(p[1..], n - 1, used);
      assert p[..n][1..] == p[1..][..n - 1];
    }
  }

  lemma NothingLeft(used: set<Color>)
    ensures Coloring.Without([], used) == []
  {
  }

  /** Leaving out a colour, or the last entry when it is not there: what is left of the palette after
      others have been left out, too, is a front of what should be left. */
  lemma WithoutColorFront(unused: seq<Color>, color: Color, used: set<Color>)
    requires NoDuplicates(unused)
    ensures Coloring.Without(WithoutColor(unused, color), used) <= Coloring.Without(unused, used + {color})
  {
    hide Coloring.Without;
    if color in unused {
      Coloring.WithoutOneMore(unused, {}, color);
      Coloring.WithoutNothing(unused);
      assert {} + {color} == {color};
      WithoutTwice(unused, {color}, used);
    } else if unused == [] {
      NothingLeft(used);
    } else {
      WithoutFront(unused, |unused| - 1, used);
      Coloring.WithoutIrrelevant(unused, used + {color}, color);
      Coloring.WithoutIrrelevant(unused, used, color);
      assert used + {color} - {color} == used - {color};
    }
  }

  /** What the client finds left is a front of the entries that no token of the list carries: they stay
      in palette order, and those dropped for nothing are the last ones. */
  lemma {:induction false} LeftInPaletteOrder(entities: map<string, Entity>, ids: seq<string>, unused: seq<Color>)
    requires AllTokens(entities, ids) && NoDuplicates(unused)
    ensures UnusedColors(entities, ids, unused) <= Coloring.Without(unused, CarriedBy(entities, ids))
  {
    hide Coloring.Without, WithoutColor, CarriedBy;
    if ids == [] {
      Coloring.WithoutNothing(unused);
      NobodyCarries(entities);
    } else {
      assert IsToken(entities, ids[0]);
      CarriedByNext(entities, ids);
      if ColorOf(entities, ids[0]).Some? {
        var color := ColorOf(entities, ids[0]).value;
        WithoutColorKeeps(unused, color);
        WithoutColorFront(unused, color, CarriedBy(entities, ids[1..]));
        LeftInPaletteOrder(entities, ids[1..], WithoutColor(unused, color));
      } else {
        LeftInPaletteOrder(entities, ids[1..], unused);
      }
    }
  }

  lemma NobodyCarries(entities: map<string, Entity>)
    ensures CarriedBy(entities, []) == {}
  {
  }

  // ----- In terms of the palette -----

  /** Some token of the list carries c, or an earlier one has been given it. */
  ghost predicate Taken(before: map<string, Entity>, after: map<string, Entity>, ids: seq<string>, i: nat, c: Color)
    requires i <= |ids|
  {
    || (exists j :: 0 <= j < |ids| && ColorOf(before, ids[j]) == Some(c))
    || (exists j :: 0 <= j < i && ColorOf(after, ids[j]) == Some(c))
  }

  lemma {:induction false} BareWith(entities: map<string, Entity>, ids: seq<string>, i: nat, m: nat) returns (j: nat)
    requires i <= |ids| && m < BareBefore(entities, ids, i)
    ensures j < i && ColorOf(entities, ids[j]).None? && BareBefore(entities, ids, j) == m
  {
    BareBeforeNext(entities, ids, i - 1);
    if m < BareBefore(entities, ids, i - 1) {
      j := BareWith(entities, ids, i - 1, m);
    } else {
      j := i - 1;
    }
  }

  /** A bare character gets a colour if and only if the coloured ones of the list and the bare ones before
      it are fewer than eight, and then it is the first palette entry that nobody has or was given
      earlier. */
  ghost predicate TakesFirstFree(before: map<string, Entity>, after: map<string, Entity>, ids: seq<string>, i: nat)
    requires i < |ids|
  {
    var colored, color := |ids| - BareBefore(before, ids, |ids|), ColorOf(after, ids[i]);
    && (color.Some? <==> colored + BareBefore(before, ids, i) < 8)
    && (color.Some? ==>
          exists p :: 0 <= p < |PALETTE| && PALETTE[p] == color.value
            && !Taken(before, after, ids, i, color.value)
            && forall q :: 0 <= q < p ==> Taken(before, after, ids, i, PALETTE[q]))
  }

  lemma TintTakesFirstFree(entities: map<string, Entity>, ids: seq<string>, i: nat)
    requires AllTokens(entities, ids) && i < |ids| && ColorOf(entities, ids[i]).None?
    ensures TakesFirstFree(entities, Tint(entities, ids, UnusedColors(entities, ids, PALETTE)), ids, i)
  {
    hide Tint, UnusedColors, BareBefore, IsToken, Coloring.Without, Taken;
    var unused := UnusedColors(entities, ids, PALETTE);
    var after := Tint(entities, ids, unused);
    Coloring.PaletteDistinct();
    ColorsLeft(entities, ids, PALETTE);
    TintAt(entities, ids, unused, i);
    LeftInPaletteOrder(entities, ids, PALETTE);
    var k := BareBefore(entities, ids, i);
    if k < |unused| {
      var p := ColoringOrder.WithoutAt(PALETTE, CarriedBy(entities, ids), k);
      forall q | 0 <= q < p ensures Taken(entities, after, ids, i, PALETTE[q]) {
        EarlierEntryTaken(entities, ids, i, PALETTE[q]);
      }
      NotTaken(entities, ids, i);
    }
  }

  lemma EarlierEntryTaken(entities: map<string, Entity>, ids: seq<string>, i: nat, c: Color)
    requires AllTokens(entities, ids) && i < |ids|
    requires var unused, k := UnusedColors(entities, ids, PALETTE), BareBefore(entities, ids, i);
      k < |unused| && (c in CarriedBy(entities, ids) || c in unused[..k])
    ensures Taken(entities, Tint(entities, ids, UnusedColors(entities, ids, PALETTE)), ids, i, c)
  {
    hide Tint, UnusedColors, BareBefore, IsToken;
    var unused, k := UnusedColors(entities, ids, PALETTE), BareBefore(entities, ids, i);
    if c !in CarriedBy(entities, ids) {
      var m :| 0 <= m < k && unused[..k][m] == c;
      var j := BareWith(entities, ids, i, m);
      TintAt(entities, ids, unused, j);
    }
  }

  lemma NotTaken(entities: map<string, Entity>, ids: seq<string>, i: nat)
    requires AllTokens(entities, ids) && i < |ids| && ColorOf(entities, ids[i]).None?
    ensures var after := Tint(entities, ids, UnusedColors(entities, ids, PALETTE));
      ColorOf(after, ids[i]).Some? ==> !Taken(entities, after, ids, i, ColorOf(after, ids[i]).value)
  {
    hide Tint, UnusedColors, BareBefore, IsToken;
    TintGuarantee(entities, ids);
  }

  // ----- A whole confirmed upsert -----

  /** Where id is concerned: an entity outside the list is left alone, and so is a coloured token in it; a
      bare one may get a colour and nothing else. */
  ghost predicate RecoloredAt(before: map<string, Entity>, after: map<string, Entity>, ids: seq<string>, id: string)
  {
    && (id in after <==> id in before)
    && (id in before ==>
          if id in ids && ColorOf(before, id).None? then PlainEntity(after[id]) == PlainEntity(before[id])
          else after[id] == before[id])
  }

  lemma TintRecolors(entities: map<string, Entity>, ids: seq<string>, id: string)
    requires AllTokens(entities, ids)
    ensures RecoloredAt(entities, Tint(entities, ids, UnusedColors(entities, ids, PALETTE)), ids, id)
  {
    hide Tint, UnusedColors, BareBefore;
    var unused := UnusedColors(entities, ids, PALETTE);
    var after := Tint(entities, ids, unused);
    TintIsPlain(entities, ids, unused);
    var p, p' := PlainEntities(entities), PlainEntities(after);
    assert p.Keys == entities.Keys && p'.Keys == after.Keys;
    assert id in entities ==> PlainEntity(after[id]) == p'[id] == p[id] == PlainEntity(entities[id]);
    if id in ids {
      var i :| 0 <= i < |ids| && ids[i] == id;
      TintAt(entities, ids, unused, i);
    } else {
      TintElsewhere(entities, ids, unused, id);
    }
  }

  /** A confirmed upsert of a character that has room: it is on the board and last in its list; if it is
      not alone there, the bare ones of the list take colours, oldest first, and nothing else changes. */
  lemma ConfirmedUpsertMeans(b: BoardState, token: ClientToken, id: string)
    requires Valid(b) && token.kind.Character? && token.id != "" && !InTheWay(b, token)
    ensures var before := b.entityById[token.id := TokenEntity(token)];
      var ids := Others(b, token.contents, token.id) + [token.id];
      var after := ApplyAction(b, UpsertToken(token), true).entityById;
      && AllTokens(before, ids)
      && (if |ids| == 1 then after == before
          else
            && RecoloredAt(before, after, ids, id)
            && forall i :: 0 <= i < |ids| && ColorOf(before, ids[i]).None? ==> TakesFirstFree(before, after, ids, i))
  {
    hide PosStr.ToPosStr, ContentId, Remove, Tint, UnusedColors, Valid, Collides, InTheWay, DeleteEntity, Insert;
    hide RecoloredAt, TakesFirstFree, Others, AllTokens;
    CollidesIff(b, token);
    InsertedEntities(b, TokenEntity(token));
    ListsInOrder(b, UpsertToken(token), false, token.contents);
    DeleteValid(b, token.id);
    FreeAfterDelete(b, TokenEntity(token));
    InsertValid(DeleteEntity(b, token.id), TokenEntity(token));
    var b' := Insert(DeleteEntity(b, token.id), TokenEntity(token));
    var ids := CharIds(b', ContentId(token.contents));
    assert ApplyAction(b, UpsertToken(token), false) == b';
    ListsHoldTokens(b', ContentId(token.contents));
    TintRecolors(b'.entityById, ids, id);
    forall i | 0 <= i < |ids| && ColorOf(b'.entityById, ids[i]).None?
      ensures TakesFirstFree(b'.entityById, Tint(b'.entityById, ids, UnusedColors(b'.entityById, ids, PALETTE)), ids, i)
    {
      TintTakesFirstFree(b'.entityById, ids, i);
    }
  }
}
