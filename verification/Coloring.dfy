/** _assign_colors of api/src/room.py: its specification, what it guarantees, and the loops. */
module Coloring {
  import opened Sequences
  import opened Components

  /** The colours the tokens already carry. */
  ghost function Carried(tokens: seq<Token>): set<Color>
  {
    set i | 0 <= i < |tokens| && tokens[i].color.Some? :: tokens[i].color.value
  }

  /** The colours of p that are not in used, in p's order. */
  ghost function Without(p: seq<Color>, used: set<Color>): (r: seq<Color>)
  {
    if p == [] then []
    else if p[0] in used then Without(p[1..], used)
    else [p[0]] + Without(p[1..], used)
  }

  /** The palette entries no token carries. */
  ghost function Free(tokens: seq<Token>): seq<Color>
  {
    Without(PALETTE, Carried(tokens))
  }

  /** Bare tokens take the colours of free from the left, until these run out. */
  ghost function Fill(tokens: seq<Token>, free: seq<Color>): (r: seq<Token>)
    ensures |r| == |tokens|
  {
    if tokens == [] then []
    else if tokens[0].color.Some? then [tokens[0]] + Fill(tokens[1..], free)
    else if free == [] then tokens
    else [tokens[0].(color := Some(free[0]))] + Fill(tokens[1..], free[1..])
  }

  ghost function AssignColors(tokens: seq<Token>): (r: seq<Token>)
    ensures |r| == |tokens|
  {
    Fill(tokens, Free(tokens))
  }

  function BareCount(tokens: seq<Token>): nat
  {
    if tokens == [] then 0 else (if tokens[0].color.None? then 1 else 0) + BareCount(tokens[1..])
  }

  /** Token i was bare and has been given a colour. */
  ghost predicate NewlyColored(before: seq<Token>, after: seq<Token>, i: int)
    requires 0 <= i < |before| == |after|
  {
    before[i].color.None? && after[i].color.Some?
  }

  // ----- What the assignment guarantees -----

  lemma PaletteDistinct()
    ensures NoDuplicates(PALETTE)
  {
  }

  lemma {:induction false} WithoutMembers(p: seq<Color>, used: set<Color>)
    requires NoDuplicates(p)
    ensures NoDuplicates(Without(p, used))
    ensures forall c :: c in Without(p, used) <==> c in p && c !in used
  {
    if p != [] {
      WithoutMembers(p[1..], used);
    }
  }

  lemma {:induction false} WithoutSize(p: seq<Color>, used: set<Color>)
    requires NoDuplicates(p)
    ensures |Without(p, used)| + |used| >= |p|
  {
    if p != [] {
      if p[0] in used {
        WithoutSize(p[1..], used - {p[0]});
        WithoutIrrelevant(p[1..], used, p[0]);
      } else {
        WithoutSize(p[1..], used);
      }
    }
  }

  lemma {:induction false} WithoutIrrelevant(p: seq<Color>, used: set<Color>, c: Color)
    requires c !in p
    ensures Without(p, used - {c}) == Without(p, used)
  {
    if p != [] {
      WithoutIrrelevant(p[1..], used, c);
    }
  }

  lemma {:induction false} CarriedSize(tokens: seq<Token>)
    ensures |Carried(tokens)| + BareCount(tokens) <= |tokens|
  {
    if tokens == [] {
      assert Carried(tokens) == {};
    } else {
      var rest := tokens[1..];
      CarriedSize(rest);
      assert forall i :: 0 < i < |tokens| ==> tokens[i] == rest[i - 1];
      assert forall i :: 0 <= i < |rest| ==> rest[i] == tokens[i + 1];
      if tokens[0].color.Some? {
        assert Carried(tokens) == Carried(rest) + {tokens[0].color.value};
      } else {
        assert Carried(tokens) == Carried(rest);
      }
    }
  }

  /** Fill changes bare tokens only, and only by giving them an entry of free, each entry once. */
  lemma {:induction false} FillSpec(tokens: seq<Token>, free: seq<Color>)
    requires NoDuplicates(free)
    ensures var r := Fill(tokens, free);
      && (forall i :: 0 <= i < |r| ==> r[i] == tokens[i].(color := r[i].color))
      && (forall i :: 0 <= i < |r| && tokens[i].color.Some? ==> r[i] == tokens[i])
      && (forall i :: 0 <= i < |r| && NewlyColored(tokens, r, i) ==> r[i].color.value in free)
      && (forall i, j :: 0 <= i < j < |r| && NewlyColored(tokens, r, i) && NewlyColored(tokens, r, j) ==>
            r[i].color != r[j].color)
  {
    var r := Fill(tokens, free);
    if tokens != [] && (tokens[0].color.Some? || free != []) {
      var free' := if tokens[0].color.Some? then free else free[1..];
      var r' := Fill(tokens[1..], free');
      FillSpec(tokens[1..], free');
      assert r[1..] == r';
      forall i | 0 < i < |r|
        ensures r[i] == r'[i - 1] && tokens[i] == tokens[1..][i - 1]
        ensures NewlyColored(tokens, r, i) ==> NewlyColored(tokens[1..], r', i - 1)
      {
      }
      if tokens[0].color.None? {
        assert free[0] !in free';
      }
    }
  }

  lemma {:induction false} FillBareCount(tokens: seq<Token>, free: seq<Color>)
    ensures BareCount(Fill(tokens, free)) ==
      if BareCount(tokens) <= |free| then 0 else BareCount(tokens) - |free|
  {
    if tokens != [] {
      var r := Fill(tokens, free);
      if tokens[0].color.Some? {
        FillBareCount(tokens[1..], free);
        assert r[1..] == Fill(tokens[1..], free);
      } else if free != [] {
        FillBareCount(tokens[1..], free[1..]);
        assert r[1..] == Fill(tokens[1..], free[1..]);
      }
    }
  }

  /** The guarantee of _assign_colors: coloured tokens are left alone, the colours handed out are
      pairwise different and were carried by no token on entry, and the bare tokens that remain
      are exactly the excess over the free palette entries; none remains among at most eight. */
  lemma AssignColorsGuarantee(tokens: seq<Token>)
    ensures var r := AssignColors(tokens);
      && (forall i :: 0 <= i < |r| ==> r[i] == tokens[i].(color := r[i].color))
      && (forall i :: 0 <= i < |r| && tokens[i].color.Some? ==> r[i] == tokens[i])
      && (forall i :: 0 <= i < |r| && NewlyColored(tokens, r, i) ==>
            r[i].color.value in PALETTE && r[i].color.value !in Carried(tokens))
      && (forall i, j :: 0 <= i < j < |r| && NewlyColored(tokens, r, i) && NewlyColored(tokens, r, j) ==>
            r[i].color != r[j].color)
      && BareCount(r) == (if BareCount(tokens) <= |Free(tokens)| then 0 else BareCount(tokens) - |Free(tokens)|)
      && (|tokens| <= 8 ==> BareCount(r) == 0)
  {
    PaletteDistinct();
    WithoutMembers(PALETTE, Carried(tokens));
    FillSpec(tokens, Free(tokens));
    FillBareCount(tokens, Free(tokens));
    WithoutSize(PALETTE, Carried(tokens));
    CarriedSize(tokens);
  }

  lemma {:induction false} NoBareMeansColored(tokens: seq<Token>)
    ensures BareCount(tokens) == 0 <==> forall i :: 0 <= i < |tokens| ==> tokens[i].color.Some?
  {
    if tokens != [] {
      NoBareMeansColored(tokens[1..]);
      assert forall i :: 0 < i < |tokens| ==> tokens[i] == tokens[1..][i - 1];
    }
  }

  lemma {:induction false} FillStops(tokens: seq<Token>, free: seq<Color>)
    ensures Fill(tokens, free) == tokens <==> BareCount(tokens) == 0 || free == []
  {
    if tokens != [] {
      FillStops(tokens[1..], free);
      var r := Fill(tokens, free);
      if tokens[0].color.Some? {
        assert r[1..] == Fill(tokens[1..], free);
        assert r == [tokens[0]] + r[1..];
        assert tokens == [tokens[0]] + tokens[1..];
      } else if free != [] {
        assert r[0] != tokens[0];
      }
    }
  }

  /** The assignment does nothing exactly when no token is bare or the palette is used up. */
  lemma AssignColorsIsIdentityIff(tokens: seq<Token>)
    ensures AssignColors(tokens) == tokens <==> BareCount(tokens) == 0 || Free(tokens) == []
  {
    FillStops(tokens, Free(tokens));
  }

  // ----- The loops -----

  lemma {:induction false} WithoutOneMore(p: seq<Color>, used: set<Color>, c: Color)
    requires NoDuplicates(p)
    ensures Without(p, used + {c}) == Remove(Without(p, used), c)
  {
    if p != [] {
      WithoutOneMore(p[1..], used, c);
      if p[0] == c {
        WithoutMembers(p[1..], used);
        assert (used + {c}) - {c} == used - {c};
        WithoutIrrelevant(p[1..], used + {c}, c);
        WithoutIrrelevant(p[1..], used, c);
      }
      RemoveCons(p[0], Without(p[1..], used), c);
    }
  }

  lemma WithoutNothing(p: seq<Color>)
    ensures Without(p, {}) == p
  {
  }

  lemma {:induction false} FillSnoc(done: seq<Token>, rest: seq<Token>, free: seq<Color>)
    ensures var n := BareCount(done);
      n <= |free| ==> Fill(done + rest, free) == Fill(done, free) + Fill(rest, free[n..])
  {
    if done == [] {
      assert done + rest == rest;
      assert free[0..] == free;
    } else {
      assert (done + rest)[1..] == done[1..] + rest;
      assert (done + rest)[0] == done[0];
      if done[0].color.Some? {
        FillSnoc(done[1..], rest, free);
      } else if free != [] {
        FillSnoc(done[1..], rest, free[1..]);
        var n := BareCount(done);
        if n <= |free| {
          assert free[1..][n - 1..] == free[n..];
        }
      }
    }
  }

  lemma {:induction false} BareCountSnoc(done: seq<Token>, t: Token)
    ensures BareCount(done + [t]) == BareCount(done) + (if t.color.None? then 1 else 0)
  {
    if done == [] {
      assert done + [t] == [t];
    } else {
      BareCountSnoc(done[1..], t);
      assert (done + [t])[1..] == done[1..] + [t];
    }
  }

  lemma FillOne(t: Token, free: seq<Color>)
    ensures Fill([t], free) == [if t.color.Some? || free == [] then t else t.(color := Some(free[0]))]
  {
    assert [t][1..] == [];
  }

  /** One step of the second loop: token i takes the next free colour when it is bare. */
  lemma FillNext(tokens: seq<Token>, i: nat, free: seq<Color>)
    requires i < |tokens|
    requires BareCount(tokens[..i]) <= |free|
    ensures BareCount(tokens[..i + 1]) == BareCount(tokens[..i]) + (if tokens[i].color.None? then 1 else 0)
    ensures var left := free[BareCount(tokens[..i])..];
      Fill(tokens[..i + 1], free) == Fill(tokens[..i], free)
        + [if tokens[i].color.Some? || left == [] then tokens[i] else tokens[i].(color := Some(left[0]))]
  {
    hide Fill, BareCount;
    assert tokens[..i + 1] == tokens[..i] + [tokens[i]];
    BareCountSnoc(tokens[..i], tokens[i]);
    FillSnoc(tokens[..i], [tokens[i]], free);
    FillOne(tokens[i], free[BareCount(tokens[..i])..]);
  }

  /** The early return of the second loop: with the palette used up the rest stays as it is. */
  lemma {:induction false} FillExhausted(tokens: seq<Token>, i: nat, free: seq<Color>)
    requires i <= |tokens|
    requires BareCount(tokens[..i]) == |free|
    ensures Fill(tokens, free) == Fill(tokens[..i], free) + tokens[i..]
  {
    assert tokens == tokens[..i] + tokens[i..];
    FillSnoc(tokens[..i], tokens[i..], free);
    assert free[BareCount(tokens[..i])..] == [];
    hide Fill;
    FillStops(tokens[i..], []);
  }

  /** _assign_colors: one loop takes the carried colours out of a copy of the palette, a second
      gives what is left to the bare tokens, in place. */
  method AssignColorsInPlace(tokens: array<Token>)
    modifies tokens
    ensures tokens[..] == AssignColors(old(tokens[..]))
  {
    hide Fill, Without;
    ghost var was := tokens[..];
    var available := PALETTE;
    assert Carried(was[..0]) == {};
    WithoutNothing(PALETTE);
    PaletteDistinct();
    for i := 0 to tokens.Length
      invariant tokens[..] == was
      invariant available == Without(PALETTE, Carried(was[..i]))
    {
      var token := tokens[i];
      assert was[..i + 1] == was[..i] + [token];
      assert forall k :: 0 <= k < i ==> was[..i][k] == was[..i + 1][k];
      if token.color.Some? {
        WithoutOneMore(PALETTE, Carried(was[..i]), token.color.value);
        assert was[..i + 1][i] == token;
        assert Carried(was[..i + 1]) == Carried(was[..i]) + {token.color.value};
        if token.color.value in available {
          var k := IndexOf(available, token.color.value);
          available := available[..k] + available[k + 1..];
        }
      } else {
        assert Carried(was[..i + 1]) == Carried(was[..i]);
      }
    }
    ghost var free := available;
    assert was[..tokens.Length] == was;
    assert free == Free(was);
    assert BareCount(was[..0]) == 0;
    for i := 0 to tokens.Length
      invariant BareCount(was[..i]) <= |free|
      invariant available == free[BareCount(was[..i])..]
      invariant tokens[..i] == Fill(was[..i], free)
      invariant tokens[i..] == was[i..]
    {
      FillNext(was, i, free);
      assert tokens[i] == tokens[i..][0] == was[i];
      if tokens[i].color.None? {
        if available == [] {
          FillExhausted(was, i, free);
          assert tokens[..] == tokens[..i] + tokens[i..];
          return;
        }
        tokens[i] := tokens[i].(color := Some(available[0]));
        available := available[1..];
      }
      assert tokens[..i + 1] == tokens[..i] + [tokens[i]];
      assert tokens[i + 1..] == was[i + 1..];
    }
    assert tokens[..tokens.Length] == tokens[..];
  }
}
