/** Which colour goes to whom (api/src/room.py:9-18), said without the loops: every bare token in turn
    takes the first palette entry that is still free. */
module ColoringOrder {
  import opened Sequences
  import opened Components
  import opened Coloring

  /** c is carried by some token on entry, or was handed to a token before the i-th. */
  ghost predicate Taken(before: seq<Token>, after: seq<Token>, i: nat, c: Color)
    requires i < |before| == |after|
  {
    || (exists j :: 0 <= j < |before| && before[j].color == Some(c))
    || (exists j :: 0 <= j < i && after[j].color == Some(c))
  }

  /** The i-th token has the first palette entry that is not taken; none when all are. */
  ghost predicate HasFirstFree(before: seq<Token>, after: seq<Token>, i: nat)
    requires i < |before| == |after|
  {
    match after[i].color
    case None => forall q :: 0 <= q < |PALETTE| ==> Taken(before, after, i, PALETTE[q])
    case Some(c) =>
      exists p :: 0 <= p < |PALETTE| && PALETTE[p] == c && !Taken(before, after, i, c)
        && forall q :: 0 <= q < p ==> Taken(before, after, i, PALETTE[q])
  }

  // ----- Positions -----

  lemma {:induction false} FillAt(tokens: seq<Token>, free: seq<Color>, i: nat)
    requires i < |tokens| && tokens[i].color.None?
    ensures var k := BareCount(tokens[..i]);
      Fill(tokens, free)[i].color == if k < |free| then Some(free[k]) else None
  {
    if i > 0 && (tokens[0].color.Some? || free != []) {
      assert tokens[..i][1..] == tokens[1..][..i - 1];
      FillAt(tokens[1..], if tokens[0].color.Some? then free else free[1..], i - 1);
    }
  }

  /** The k-th free colour, and what stands before it in the palette. */
  lemma {:induction false} WithoutAt(p: seq<Color>, used: set<Color>, k: nat) returns (q: nat)
    requires k < |Without(p, used)|
    ensures q < |p| && p[q] == Without(p, used)[k] && p[q] !in used
    ensures forall m :: 0 <= m < q ==> p[m] in used || p[m] in Without(p, used)[..k]
  {
    var r := Without(p, used);
    if p[0] in used {
      q := WithoutAt(p[1..], used, k);
      assert forall m :: 0 < m < q + 1 ==> p[m] == p[1..][m - 1];
      q := q + 1;
    } else if k == 0 {
      q := 0;
    } else {
      q := WithoutAt(p[1..], used, k - 1);
      assert r[..k] == [p[0]] + Without(p[1..], used)[..k - 1];
      assert forall m :: 0 < m < q + 1 ==> p[m] == p[1..][m - 1];
      q := q + 1;
    }
  }

  /** The bare token that has m bare ones before it. */
  lemma {:induction false} BareAt(tokens: seq<Token>, i: nat, m: nat) returns (j: nat)
    requires i <= |tokens| && m < BareCount(tokens[..i])
    ensures j < i && tokens[j].color.None? && BareCount(tokens[..j]) == m
  {
    assert tokens[..i] == tokens[..i - 1] + [tokens[i - 1]];
    BareCountSnoc(tokens[..i - 1], tokens[i - 1]);
    if m < BareCount(tokens[..i - 1]) {
      j := BareAt(tokens, i - 1, m);
    } else {
      j := i - 1;
    }
  }

  lemma {:induction false} BareCountGrows(tokens: seq<Token>, j: nat, i: nat)
    requires j <= i <= |tokens|
    ensures BareCount(tokens[..j]) <= BareCount(tokens[..i])
    decreases i - j
  {
    if j < i {
      BareCountGrows(tokens, j, i - 1);
      assert tokens[..i] == tokens[..i - 1] + [tokens[i - 1]];
      BareCountSnoc(tokens[..i - 1], tokens[i - 1]);
    }
  }

  lemma NextBare(tokens: seq<Token>, j: nat, i: nat)
    requires j < i <= |tokens| && tokens[j].color.None?
    ensures BareCount(tokens[..j]) < BareCount(tokens[..i])
  {
    assert tokens[..j + 1] == tokens[..j] + [tokens[j]];
    BareCountSnoc(tokens[..j], tokens[j]);
    BareCountGrows(tokens, j + 1, i);
  }

  // ----- The order -----

  /** A colour before the k-th free one, k bare tokens standing before i, has been handed out. */
  lemma HandedOut(tokens: seq<Token>, i: nat, m: nat)
    requires i < |tokens| && m < BareCount(tokens[..i]) && m < |Free(tokens)|
    ensures Taken(tokens, AssignColors(tokens), i, Free(tokens)[m])
  {
    var j := BareAt(tokens, i, m);
    FillAt(tokens, Free(tokens), j);
  }

  lemma NotTaken(tokens: seq<Token>, i: nat)
    requires i < |tokens| && tokens[i].color.None? && BareCount(tokens[..i]) < |Free(tokens)|
    ensures !Taken(tokens, AssignColors(tokens), i, Free(tokens)[BareCount(tokens[..i])])
  {
    hide Fill, Without, BareCount;
    var r, free, k := AssignColors(tokens), Free(tokens), BareCount(tokens[..i]);
    PaletteDistinct();
    WithoutMembers(PALETTE, Carried(tokens));
    AssignColorsGuarantee(tokens);
    assert free[k] in free;
    forall j | 0 <= j < |tokens| ensures tokens[j].color != Some(free[k]) {
      assert tokens[j].color.Some? ==> tokens[j].color.value in Carried(tokens);
    }
    forall j | 0 <= j < i ensures r[j].color != Some(free[k]) {
      if tokens[j].color.None? {
        FillAt(tokens, free, j);
        NextBare(tokens, j, i);
      }
    }
  }

  /** Every bare token in turn has the first palette entry that no token had on entry and no token
      before it was given; it stays bare only when all are taken. */
  lemma BareTakesFirstFree(tokens: seq<Token>, i: nat)
    requires i < |tokens| && tokens[i].color.None?
    ensures HasFirstFree(tokens, AssignColors(tokens), i)
  {
    hide Fill, Without, BareCount, Taken;
    var r, free, k := AssignColors(tokens), Free(tokens), BareCount(tokens[..i]);
    FillAt(tokens, free, i);
    PaletteDistinct();
    WithoutMembers(PALETTE, Carried(tokens));
    if k < |free| {
      var p := WithoutAt(PALETTE, Carried(tokens), k);
      NotTaken(tokens, i);
      forall q | 0 <= q < p ensures Taken(tokens, r, i, PALETTE[q]) {
        EntryTaken(tokens, i, PALETTE[q], k);
      }
      assert PALETTE[p] == free[k] && r[i].color == Some(free[k]);
    } else {
      forall q | 0 <= q < |PALETTE| ensures Taken(tokens, r, i, PALETTE[q]) {
        assert PALETTE[q] in PALETTE;
        assert free[..|free|] == free;
        EntryTaken(tokens, i, PALETTE[q], |free|);
      }
    }
  }

  lemma EntryTaken(tokens: seq<Token>, i: nat, c: Color, k: nat)
    requires i < |tokens| && k <= |Free(tokens)| && k <= BareCount(tokens[..i])
    requires c in Carried(tokens) || c in Free(tokens)[..k]
    ensures Taken(tokens, AssignColors(tokens), i, c)
  {
    hide Fill, Without, BareCount;
    if c in Carried(tokens) {
      var j :| 0 <= j < |tokens| && tokens[j].color.Some? && tokens[j].color.value == c;
      assert tokens[j].color == Some(c);
    } else {
      var m :| 0 <= m < k && Free(tokens)[..k][m] == c;
      HandedOut(tokens, i, m);
    }
  }

  /** Nothing else is such a colouring. */
  lemma {:induction false} OnlyOneColoring(before: seq<Token>, x: seq<Token>, y: seq<Token>, n: nat)
    requires |x| == |y| == |before| && n <= |before|
    requires forall i :: 0 <= i < |before| ==>
      && x[i] == before[i].(color := x[i].color) && y[i] == before[i].(color := y[i].color)
      && (before[i].color.Some? ==> x[i] == before[i] == y[i])
      && (before[i].color.None? ==> HasFirstFree(before, x, i) && HasFirstFree(before, y, i))
    ensures x[..n] == y[..n]
  {
    hide HasFirstFree;
    if n > 0 {
      OnlyOneColoring(before, x, y, n - 1);
      if before[n - 1].color.None? {
        assert HasFirstFree(before, x, n - 1) && HasFirstFree(before, y, n - 1);
        SameFirstFree(before, x, y, n - 1);
      }
      assert x[n - 1] == y[n - 1];
    }
  }

  lemma SameFirstFree(before: seq<Token>, x: seq<Token>, y: seq<Token>, i: nat)
    requires i < |before| == |x| == |y| && x[..i] == y[..i]
    requires HasFirstFree(before, x, i) && HasFirstFree(before, y, i)
    ensures x[i].color == y[i].color
  {
    assert forall j :: 0 <= j < i ==> x[j] == x[..i][j] == y[j];
    forall c ensures Taken(before, x, i, c) <==> Taken(before, y, i, c) {
    }
    if x[i].color.Some? && y[i].color.Some? {
      var p :| 0 <= p < |PALETTE| && PALETTE[p] == x[i].color.value && !Taken(before, x, i, x[i].color.value)
        && forall q :: 0 <= q < p ==> Taken(before, x, i, PALETTE[q]);
      var q :| 0 <= q < |PALETTE| && PALETTE[q] == y[i].color.value && !Taken(before, y, i, y[i].color.value)
        && forall m :: 0 <= m < q ==> Taken(before, y, i, PALETTE[m]);
    }
  }

  /** So the assignment is fully described by: coloured tokens stay as they are, and bare tokens in turn
      take the first free palette entry. */
  lemma AssignColorsIff(tokens: seq<Token>, r: seq<Token>)
    requires |r| == |tokens|
    ensures r == AssignColors(tokens) <==>
      forall i :: 0 <= i < |r| ==>
        if tokens[i].color.Some? then r[i] == tokens[i]
        else r[i] == tokens[i].(color := r[i].color) && HasFirstFree(tokens, r, i)
  {
    hide Fill, Without, HasFirstFree, AssignColors;
    var a := AssignColors(tokens);
    AssignColorsGuarantee(tokens);
    forall i | 0 <= i < |a| && tokens[i].color.None? ensures HasFirstFree(tokens, a, i) {
      BareTakesFirstFree(tokens, i);
    }
    if forall i :: 0 <= i < |r| ==>
        if tokens[i].color.Some? then r[i] == tokens[i]
        else r[i] == tokens[i].(color := r[i].color) && HasFirstFree(tokens, r, i) {
      OnlyOneColoring(tokens, r, a, |r|);
      assert r[..|r|] == r && a[..|r|] == a;
    }
  }
}
