/** The colours a client hands out on a confirmed upsert: web/src/ui/board/board-state.ts:111-131. */
module ClientColoring {
  import opened Sequences
  import opened Components
  import opened ClientTables
  import Coloring
  import PosStr

  ghost predicate AllTokens(entities: map<string, Entity>, ids: seq<string>)
  {
    NoDuplicates(ids) && forall i :: 0 <= i < |ids| ==> IsToken(entities, ids[i])
  }

  function ColorOf(entities: map<string, Entity>, id: string): Option<Color>
  {
    if IsToken(entities, id) then entities[id].token.color else None
  }

  /** How many of the first i tokens are bare. */
  function BareBefore(entities: map<string, Entity>, ids: seq<string>, i: nat): (r: nat)
    requires i <= |ids|
    ensures r <= i
  {
    if i == 0 then 0
    else BareBefore(entities, ids[1..], i - 1) + if ColorOf(entities, ids[0]).None? then 1 else 0
  }

  lemma {:induction false} BareBeforeNext(entities: map<string, Entity>, ids: seq<string>, i: nat)
    requires i < |ids|
    ensures BareBefore(entities, ids, i + 1) ==
      BareBefore(entities, ids, i) + if ColorOf(entities, ids[i]).None? then 1 else 0
  {
    if i > 0 {
      BareBeforeNext(entities, ids[1..], i - 1);
    }
  }

  lemma {:induction false} BareBeforeMonotone(entities: map<string, Entity>, ids: seq<string>, i: nat, j: nat)
    requires i <= j <= |ids|
    ensures BareBefore(entities, ids, i) <= BareBefore(entities, ids, j)
    decreases j - i
  {
    if i < j {
      BareBeforeMonotone(entities, ids, i, j - 1);
      BareBeforeNext(entities, ids, j - 1);
    }
  }

  lemma {:induction false} BareBeforeSame(a: map<string, Entity>, b: map<string, Entity>, ids: seq<string>, i: nat)
    requires i <= |ids| && forall k :: 0 <= k < |ids| ==> ColorOf(a, ids[k]) == ColorOf(b, ids[k])
    ensures BareBefore(a, ids, i) == BareBefore(b, ids, i)
  {
    if i > 0 {
      BareBeforeSame(a, b, ids[1..], i - 1);
    }
  }

  // ----- The palette that is left -----

  lemma WithoutColorKeeps(unused: seq<Color>, color: Color)
    requires NoDuplicates(unused)
    ensures var left := WithoutColor(unused, color);
      && NoDuplicates(left) && color !in left
      && (forall c :: c in left ==> c in unused)
      && |left| == if unused == [] then 0 else |unused| - 1
  {
    RemoveFromDistinct(unused, color);
  }

  /** Every coloured token uses up one entry: its own colour, or the last one when its own is gone. */
  lemma {:induction false} ColorsLeft(entities: map<string, Entity>, ids: seq<string>, unused: seq<Color>)
    requires AllTokens(entities, ids) && NoDuplicates(unused)
    ensures var left := UnusedColors(entities, ids, unused);
      && NoDuplicates(left)
      && (forall c :: c in left ==> c in unused && forall i :: 0 <= i < |ids| ==> ColorOf(entities, ids[i]) != Some(c))
      && var colored := |ids| - BareBefore(entities, ids, |ids|);
         |left| == if colored <= |unused| then |unused| - colored else 0
  {
    hide WithoutColor;
    if ids != [] {
      var left := UnusedColors(entities, ids, unused);
      assert IsToken(entities, ids[0]);
      if ColorOf(entities, ids[0]).Some? {
        var color := ColorOf(entities, ids[0]).value;
        WithoutColorKeeps(unused, color);
        ColorsLeft(entities, ids[1..], WithoutColor(unused, color));
      } else {
        ColorsLeft(entities, ids[1..], unused);
      }
      forall c, i | c in left && 0 <= i < |ids| ensures ColorOf(entities, ids[i]) != Some(c) {
        if i > 0 {
          assert ids[i] == ids[1..][i - 1];
        }
      }
    }
  }

  // ----- Handing them out -----

  /** The k-th bare token gets the k-th colour that is left; nothing else changes. */
  lemma {:induction false} TintAt(entities: map<string, Entity>, ids: seq<string>, unused: seq<Color>, i: nat)
    requires AllTokens(entities, ids) && i < |ids|
    ensures ColorOf(Tint(entities, ids, unused), ids[i]) ==
      if ColorOf(entities, ids[i]).Some? then ColorOf(entities, ids[i])
      else
        var k := BareBefore(entities, ids, i);
        if k < |unused| then Some(unused[k]) else None
  {
    assert IsToken(entities, ids[0]);
    var rest := ids[1..];
    if ColorOf(entities, ids[0]).None? {
      var color := if unused == [] then None else Some(unused[0]);
      var entities' := entities[ids[0] := TokenEntity(entities[ids[0]].token.(color := color))];
      var unused' := if unused == [] then [] else unused[1..];
      if i == 0 {
        TintElsewhere(entities', rest, unused', ids[0]);
      } else {
        TintAt(entities', rest, unused', i - 1);
        BareBeforeSame(entities, entities', rest, i - 1);
      }
    } else if i == 0 {
      TintElsewhere(entities, rest, unused, ids[0]);
    } else {
      TintAt(entities, rest, unused, i - 1);
    }
  }

  lemma {:induction false} TintElsewhere(
    entities: map<string, Entity>, ids: seq<string>, unused: seq<Color>, id: string)
    requires id !in ids
    ensures id in Tint(entities, ids, unused) <==> id in entities
    ensures id in entities ==> Tint(entities, ids, unused)[id] == entities[id]
  {
    if ids != [] {
      if IsToken(entities, ids[0]) && entities[ids[0]].token.color.None? {
        var color := if unused == [] then None else Some(unused[0]);
        TintElsewhere(entities[ids[0] := TokenEntity(entities[ids[0]].token.(color := color))], ids[1..],
                      if unused == [] then [] else unused[1..], id);
      } else {
        TintElsewhere(entities, ids[1..], unused, id);
      }
    }
  }

  /** Token i was bare and has been given a colour. */
  ghost predicate NewlyColored(before: map<string, Entity>, after: map<string, Entity>, id: string)
  {
    ColorOf(before, id).None? && ColorOf(after, id).Some?
  }

  lemma {:induction false} LastBare(entities: map<string, Entity>, ids: seq<string>, n: nat) returns (i: nat)
    requires n <= |ids| && BareBefore(entities, ids, n) > 0
    ensures i < n && ColorOf(entities, ids[i]).None?
    ensures BareBefore(entities, ids, i) == BareBefore(entities, ids, n) - 1
  {
    BareBeforeNext(entities, ids, n - 1);
    if ColorOf(entities, ids[n - 1]).Some? {
      i := LastBare(entities, ids, n - 1);
    } else {
      i := n - 1;
    }
  }

  /** A list of characters after a confirmed upsert: coloured ones are left alone, and the colours
      handed out are pairwise different palette entries that none of them had. */
  lemma TintGuarantee(entities: map<string, Entity>, ids: seq<string>)
    requires AllTokens(entities, ids)
    ensures var after := Tint(entities, ids, UnusedColors(entities, ids, PALETTE));
      && (forall i :: 0 <= i < |ids| && ColorOf(entities, ids[i]).Some? ==>
            ColorOf(after, ids[i]) == ColorOf(entities, ids[i]))
      && (forall i :: 0 <= i < |ids| && NewlyColored(entities, after, ids[i]) ==>
            && ColorOf(after, ids[i]).value in PALETTE
            && forall j :: 0 <= j < |ids| ==> ColorOf(entities, ids[j]) != ColorOf(after, ids[i]))
      && (forall i, j ::
            0 <= i < j < |ids| && NewlyColored(entities, after, ids[i]) && NewlyColored(entities, after, ids[j]) ==>
            ColorOf(after, ids[i]) != ColorOf(after, ids[j]))
  {
    hide Tint, UnusedColors, BareBefore, IsToken;
    var unused := UnusedColors(entities, ids, PALETTE);
    var after := Tint(entities, ids, unused);
    Coloring.PaletteDistinct();
    ColorsLeft(entities, ids, PALETTE);
    forall i | 0 <= i < |ids|
      ensures ColorOf(entities, ids[i]).Some? ==> ColorOf(after, ids[i]) == ColorOf(entities, ids[i])
      ensures NewlyColored(entities, after, ids[i]) ==> ColorOf(after, ids[i]).value in unused
    {
      TintAt(entities, ids, unused, i);
    }
    forall i, j | 0 <= i < j < |ids| && NewlyColored(entities, after, ids[i]) && NewlyColored(entities, after, ids[j])
      ensures ColorOf(after, ids[i]) != ColorOf(after, ids[j])
    {
      TintAt(entities, ids, unused, i);
      TintAt(entities, ids, unused, j);
      BareBeforeNext(entities, ids, i);
      BareBeforeMonotone(entities, ids, i + 1, j);
    }
  }

  /** A character of the list stays bare exactly when there are more than eight and some were bare:
      dropping an entry for a colour that is already gone costs the client colours that the server,
      which counts different colours only, still has. */
  lemma AllColoredIff(entities: map<string, Entity>, ids: seq<string>)
    requires AllTokens(entities, ids)
    ensures var after := Tint(entities, ids, UnusedColors(entities, ids, PALETTE));
      (forall i :: 0 <= i < |ids| ==> ColorOf(after, ids[i]).Some?)
      <==> |ids| <= 8 || forall i :: 0 <= i < |ids| ==> ColorOf(entities, ids[i]).Some?
  {
    hide Tint, UnusedColors, BareBefore, IsToken;
    var unused, n := UnusedColors(entities, ids, PALETTE), |ids|;
    var after := Tint(entities, ids, unused);
    Coloring.PaletteDistinct();
    ColorsLeft(entities, ids, PALETTE);
    forall i | 0 <= i < n
      ensures ColorOf(entities, ids[i]).Some? ==> ColorOf(after, ids[i]).Some?
      ensures ColorOf(entities, ids[i]).None? ==>
        BareBefore(entities, ids, n) > 0 && (ColorOf(after, ids[i]).Some? <==> BareBefore(entities, ids, i) < |unused|)
      ensures BareBefore(entities, ids, n) > BareBefore(entities, ids, i) || ColorOf(entities, ids[i]).Some?
    {
      TintAt(entities, ids, unused, i);
      BareBeforeNext(entities, ids, i);
      BareBeforeMonotone(entities, ids, i + 1, n);
    }
    if BareBefore(entities, ids, n) > 0 {
      var i := LastBare(entities, ids, n);
    }
  }

  lemma ListsHoldTokens(b: BoardState, contentId: string)
    requires Valid(b)
    ensures AllTokens(b.entityById, CharIds(b, contentId))
  {
    var ids := CharIds(b, contentId);
    forall i | 0 <= i < |ids| ensures IsToken(b.entityById, ids[i]) {
      assert ids[i] in ids;
    }
  }

  /** A confirmed upsert of a character that finds others with its contents: afterwards all of them
      are coloured if and only if there are at most eight or all of them were. */
  lemma ConfirmedUpsertColors(b: BoardState, token: ClientToken)
    requires Valid(b) && token.kind.Character? && token.id != "" && !Collides(b, TokenEntity(token))
    ensures var before := Insert(DeleteEntity(b, token.id), TokenEntity(token));
      var after := UpsertEntity(b, TokenEntity(token), true);
      var ids := CharIds(before, ContentId(token.contents));
      && CharIds(after, ContentId(token.contents)) == ids && token.id in ids
      && (|ids| > 1 ==>
            ((forall i :: 0 <= i < |ids| ==> ColorOf(after.entityById, ids[i]).Some?)
             <==> |ids| <= 8 || forall i :: 0 <= i < |ids| ==> ColorOf(before.entityById, ids[i]).Some?))
  {
    DeleteValid(b, token.id);
    FreeAfterDelete(b, TokenEntity(token));
    InsertValid(DeleteEntity(b, token.id), TokenEntity(token));
    var before := Insert(DeleteEntity(b, token.id), TokenEntity(token));
    ListsHoldTokens(before, ContentId(token.contents));
    AllColoredIff(before.entityById, CharIds(before, ContentId(token.contents)));
    hide Valid, DeleteEntity, Collides, Tint, UnusedColors, ContentId, PosStr.ToPosStr;
  }
}
