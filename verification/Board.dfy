/** What a log of actions means: the pieces on the board, in order, colours aside.
    Server rooms, compacted logs, archives and client boards are all compared with this fold,
    which keeps no index and never fails. */
module Board {
  import opened Sequences
  import opened Components

  datatype Piece = Piece(id: string, kind: Kind, contents: Contents, box: Box)

  type Board = seq<Piece>

  function Bare(t: Token): Piece
  {
    Piece(t.id, t.kind, t.contents, t.box)
  }

  ghost predicate Overlap(a: Box, b: Box)
  {
    exists c :: InBox(c, a) && InBox(c, b)
  }

  ghost predicate Blocked(b: Board, box: Box)
  {
    exists i :: 0 <= i < |b| && Overlap(b[i].box, box)
  }

  /** The position of the piece called id, or |b|. */
  function Find(b: Board, id: string): (i: nat)
    ensures i <= |b|
    ensures i < |b| ==> b[i].id == id
    ensures forall j :: 0 <= j < i ==> b[j].id != id
  {
    if b == [] then 0 else if b[0].id == id then 0 else 1 + Find(b[1..], id)
  }

  function Lookup(b: Board, id: string): Option<Piece>
  {
    var i := Find(b, id);
    if i < |b| then Some(b[i]) else None
  }

  /** A piece is placed only on cells nobody occupies, its own old cells included. */
  ghost function Place(b: Board, p: Piece): Board
  {
    var i := Find(b, p.id);
    if Blocked(b, p.box) then b
    else if i < |b| then b[i := p]
    else b + [p]
  }

  function Take(b: Board, id: string): Board
  {
    var i := Find(b, id);
    if i < |b| then b[..i] + b[i + 1..] else b
  }

  ghost function Step(b: Board, a: Action): Board
  {
    match a
    case Upsert(token) => Place(b, Bare(token))
    case Delete(id) => Take(b, id)
    case PingAction(_) => b
  }

  ghost function Fold(b: Board, log: seq<Action>): Board
  {
    if log == [] then b else Step(Fold(b, log[..|log| - 1]), log[|log| - 1])
  }

  ghost function Replay(log: seq<Action>): Board
  {
    Fold([], log)
  }

  ghost predicate Distinct(b: Board)
  {
    forall i, j :: 0 <= i < j < |b| ==> b[i].id != b[j].id
  }

  ghost predicate Disjoint(b: Board)
  {
    forall i, j :: 0 <= i < j < |b| ==> !Overlap(b[i].box, b[j].box)
  }

  lemma {:induction false} FoldConcat(b: Board, x: seq<Action>, y: seq<Action>)
    ensures Fold(b, x + y) == Fold(Fold(b, x), y)
  {
    if y == [] {
      assert x + y == x;
    } else {
      var front := y[..|y| - 1];
      FoldConcat(b, x, front);
      assert (x + y)[..|x + y| - 1] == x + front;
    }
  }

  lemma FoldSnoc(b: Board, x: seq<Action>, a: Action)
    ensures Fold(b, x + [a]) == Step(Fold(b, x), a)
  {
    assert (x + [a])[..|x|] == x;
  }

  /** Two logs that mean the same still do after the same actions are appended. */
  lemma ReplayAppend(x: seq<Action>, y: seq<Action>, suffix: seq<Action>)
    requires Replay(x) == Replay(y)
    ensures Replay(x + suffix) == Replay(y + suffix) == Fold(Replay(x), suffix)
  {
    FoldConcat([], x, suffix);
    FoldConcat([], y, suffix);
  }

  lemma OverlapSymmetric(a: Box, b: Box)
    ensures Overlap(a, b) <==> Overlap(b, a)
  {
  }

  lemma FindUnique(b: Board, i: nat)
    requires Distinct(b) && i < |b|
    ensures Find(b, b[i].id) == i
  {
  }

  lemma PlaceKeepsDisjoint(b: Board, p: Piece)
    requires Distinct(b) && Disjoint(b)
    ensures Distinct(Place(b, p)) && Disjoint(Place(b, p))
  {
    if !Blocked(b, p.box) {
      forall i | 0 <= i < |b|
        ensures !Overlap(b[i].box, p.box) && !Overlap(p.box, b[i].box)
      {
        OverlapSymmetric(b[i].box, p.box);
      }
      var r := Place(b, p);
      var k := Find(b, p.id);
      assert forall i :: 0 <= i < |r| && i != k ==> i < |b| && r[i] == b[i];
      assert r[k] == p;
      forall i, j | 0 <= i < j < |r|
        ensures r[i].id != r[j].id && !Overlap(r[i].box, r[j].box)
      {
      }
    }
  }

  lemma TakeKeepsDisjoint(b: Board, id: string)
    requires Distinct(b) && Disjoint(b)
    ensures Distinct(Take(b, id)) && Disjoint(Take(b, id))
  {
    var r := Take(b, id);
    var k := Find(b, id);
    forall i | 0 <= i < |r|
      ensures r[i] == b[if i < k then i else i + 1]
    {
    }
    forall i, j | 0 <= i < j < |r|
      ensures r[i].id != r[j].id && !Overlap(r[i].box, r[j].box)
    {
      var i', j' := if i < k then i else i + 1, if j < k then j else j + 1;
      assert i' < j' < |b|;
    }
  }

  /** No action makes two pieces share an id or a cell. */
  lemma StepKeepsDisjoint(b: Board, a: Action)
    requires Distinct(b) && Disjoint(b)
    ensures Distinct(Step(b, a)) && Disjoint(Step(b, a))
  {
    match a
    case Upsert(token) => PlaceKeepsDisjoint(b, Bare(token));
    case Delete(id) => TakeKeepsDisjoint(b, id);
    case PingAction(_) =>
  }

  lemma {:induction false} FoldKeepsDisjoint(b: Board, log: seq<Action>)
    requires Distinct(b) && Disjoint(b)
    ensures Distinct(Fold(b, log)) && Disjoint(Fold(b, log))
  {
    if log != [] {
      FoldKeepsDisjoint(b, log[..|log| - 1]);
      StepKeepsDisjoint(Fold(b, log[..|log| - 1]), log[|log| - 1]);
    }
  }

  /** Over every log, no two tokens ever share an id or occupy a common cell. */
  lemma ReplayIsDisjoint(log: seq<Action>)
    ensures Distinct(Replay(log)) && Disjoint(Replay(log))
  {
    FoldKeepsDisjoint([], log);
  }

  function Bares(tokens: seq<Token>): (r: Board)
    ensures |r| == |tokens|
    ensures forall i :: 0 <= i < |r| ==> r[i] == Bare(tokens[i])
  {
    seq(|tokens|, i requires 0 <= i < |tokens| => Bare(tokens[i]))
  }

  function Upserts(tokens: seq<Token>): (r: seq<Action>)
    ensures |r| == |tokens|
    ensures forall i :: 0 <= i < |r| ==> r[i] == Upsert(tokens[i])
  {
    seq(|tokens|, i requires 0 <= i < |tokens| => Upsert(tokens[i]))
  }

  /** Upserting the tokens of a board, in order, onto an empty board gives that board back. */
  lemma {:induction false} ReplayUpserts(tokens: seq<Token>)
    requires Distinct(Bares(tokens)) && Disjoint(Bares(tokens))
    ensures Replay(Upserts(tokens)) == Bares(tokens)
  {
    if tokens != [] {
      var n := |tokens| - 1;
      var front := tokens[..n];
      var b := Bares(tokens);
      assert Bares(front) == b[..n];
      ReplayUpserts(front);
      assert Upserts(tokens)[..n] == Upserts(front);
      assert Upserts(tokens)[n] == Upsert(tokens[n]);
      assert !Blocked(b[..n], b[n].box);
      assert Place(b[..n], b[n]) == b[..n] + [b[n]];
    }
  }

  lemma LookupTaken(b: Board, taken: string, id: string)
    requires Distinct(b)
    ensures Lookup(Take(b, taken), id) == if id == taken then None else Lookup(b, id)
  {
    var b', k := Take(b, taken), Find(b, taken);
    if k < |b| {
      assert forall i :: 0 <= i < |b'| ==> b'[i] == b[if i < k then i else i + 1];
      if id != taken && Find(b, id) < |b| {
        var i := Find(b, id);
        var i' := if i < k then i else i - 1;
        assert b'[i'] == b[i];
        assert Distinct(b');
        FindUnique(b', i');
      }
    }
  }

  // ----- Logs that keep the looks of live characters -----

  /** An upsert that would be accepted keeps the kind of the token it moves and, of a character, the
      contents. */
  ghost predicate StableStep(b: Board, a: Action)
  {
    a.Upsert? && !Blocked(b, a.token.box) && Lookup(b, a.token.id).Some? ==>
      var p := Lookup(b, a.token.id).value;
      p.kind == a.token.kind && (p.kind.Character? ==> p.contents == a.token.contents)
  }

  ghost predicate Stable(b: Board, log: seq<Action>)
  {
    forall k :: 0 <= k < |log| ==> StableStep(Fold(b, log[..k]), log[k])
  }

  lemma {:induction false} StableConcat(b: Board, x: seq<Action>, y: seq<Action>)
    ensures Stable(b, x + y) <==> Stable(b, x) && Stable(Fold(b, x), y)
  {
    var z := x + y;
    forall k | 0 <= k < |x|
      ensures z[..k] == x[..k] && z[k] == x[k]
    {
    }
    forall k | 0 <= k < |y|
      ensures Fold(b, z[..|x| + k]) == Fold(Fold(b, x), y[..k]) && z[|x| + k] == y[k]
    {
      assert z[..|x| + k] == x + y[..k];
      FoldConcat(b, x, y[..k]);
    }
    if Stable(b, z) {
      forall k | 0 <= k < |x| ensures StableStep(Fold(b, x[..k]), x[k]) {
        assert StableStep(Fold(b, z[..k]), z[k]);
      }
      forall k | 0 <= k < |y| ensures StableStep(Fold(Fold(b, x), y[..k]), y[k]) {
        assert StableStep(Fold(b, z[..|x| + k]), z[|x| + k]);
      }
    }
    if Stable(b, x) && Stable(Fold(b, x), y) {
      forall k | 0 <= k < |z| ensures StableStep(Fold(b, z[..k]), z[k]) {
        if k < |x| {
          assert StableStep(Fold(b, x[..k]), x[k]);
        } else {
          assert StableStep(Fold(Fold(b, x), y[..k - |x|]), y[k - |x|]);
        }
      }
    }
  }

  /** Upserts of distinct ids never touch a live token. */
  lemma {:induction false} UpsertsAreStable(tokens: seq<Token>)
    requires Distinct(Bares(tokens)) && Disjoint(Bares(tokens))
    ensures Stable([], Upserts(tokens))
  {
    forall k | 0 <= k < |tokens|
      ensures StableStep(Fold([], Upserts(tokens)[..k]), Upserts(tokens)[k])
    {
      var front := tokens[..k];
      assert Bares(front) == Bares(tokens)[..k];
      ReplayUpserts(front);
      assert Upserts(tokens)[..k] == Upserts(front);
      assert forall i :: 0 <= i < k ==> Bares(front)[i].id != Bares(tokens)[k].id;
    }
  }
}
