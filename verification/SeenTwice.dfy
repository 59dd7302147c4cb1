/** A connection subscribes before it reads (api/src/game_state_server.py:99-105), so a request made
    in between is both in the snapshot and in the stream. Replaying it is not harmless. */
module SeenTwice {
  import opened Sequences
  import opened Components
  import opened Board
  import opened ClientTables
  import opened Wire
  import opened ClientServerAgreement
  import opened Connection

  /** log and snapshot are what a connection that read after n requests can have seen. */
  ghost predicate Fits(log: seq<Request>, snapshot: seq<Token>, n: nat)
  {
    && n <= |log|
    && Wellformed(Actions(log)) && CompatibleLog([], Actions(log))
    && Bares(snapshot) == Replay(Actions(log[..n]))
  }

  /** A fresh client that is sent everything from the m-th request on ends up with the server's
      tokens. */
  ghost predicate Converges(log: seq<Request>, snapshot: seq<Token>, m: nat)
    requires m <= |log|
  {
    Agree(NetworkBoard(snapshot, log[m..]), Replay(Actions(log)))
  }

  // ----- A request that must not be replayed -----

  function At(x: int): Cell
  {
    Cell(x, 0, 0)
  }

  function Pawn(id: string, x: int): Token
  {
    Token(id, Character, Text(id), UnitBox(At(x)), None)
  }

  /** a takes cell 0 and b is refused there; then a makes room for c. */
  const SHUFFLE: seq<Action> := [
    Upsert(Pawn("a", 0)),
    Upsert(Pawn("c", 2)),
    Upsert(Pawn("b", 0)),
    Upsert(Pawn("a", 1)),
    Upsert(Pawn("c", 0))
  ]

  const SHUFFLED: seq<Token> := [Pawn("a", 1), Pawn("c", 0)]

  lemma UnitBlockedIff(b: Board, xs: seq<int>, x: int)
    requires |b| == |xs| && forall i :: 0 <= i < |b| ==> b[i].box == UnitBox(At(xs[i]))
    ensures Blocked(b, UnitBox(At(x))) <==> x in xs
  {
    forall i | 0 <= i < |b| ensures Overlap(b[i].box, UnitBox(At(x))) <==> xs[i] == x {
      UnitOverlap(At(xs[i]), At(x));
    }
  }

  /** One upsert of a log, onto a board whose pieces stand at xs. */
  lemma FoldUpsert(b: Board, log: seq<Action>, k: nat, xs: seq<int>, id: string, x: int)
    requires k < |log| && log[k] == Upsert(Pawn(id, x))
    requires var before := Fold(b, log[..k]);
      |before| == |xs| && forall i :: 0 <= i < |xs| ==> before[i].box == UnitBox(At(xs[i]))
    ensures var before := Fold(b, log[..k]); var i := Find(before, id);
      Fold(b, log[..k + 1]) ==
        if x in xs then before
        else if i < |before| then before[i := Bare(Pawn(id, x))]
        else before + [Bare(Pawn(id, x))]
    ensures (Find(Fold(b, log[..k]), id) < |xs| ==> xs[Find(Fold(b, log[..k]), id)] != x)
      ==> Compatible(Fold(b, log[..k]), log[k])
  {
    hide Blocked, Find;
    assert log[..k + 1] == log[..k] + [log[k]];
    FoldSnoc(b, log[..k], log[k]);
    UnitBlockedIff(Fold(b, log[..k]), xs, x);
    assert x in xs || x !in xs;
    var i := Find(Fold(b, log[..k]), id);
    if i < |xs| && xs[i] != x {
      assert UnitBox(At(xs[i])).startX != UnitBox(At(x)).startX;
    }
  }

  lemma FoldNothing(b: Board, log: seq<Action>)
    ensures Fold(b, log[..0]) == b
  {
  }

  lemma ShuffleStart()
    ensures Fold([], SHUFFLE[..3]) == [Bare(Pawn("a", 0)), Bare(Pawn("c", 2))]
    ensures forall k :: 0 <= k < 3 ==> Compatible(Fold([], SHUFFLE[..k]), SHUFFLE[k])
  {
    hide Fold, Compatible;
    FoldNothing([], SHUFFLE);
    FoldUpsert([], SHUFFLE, 0, [], "a", 0);
    FoldUpsert([], SHUFFLE, 1, [0], "c", 2);
    FoldUpsert([], SHUFFLE, 2, [0, 2], "b", 0);
  }

  lemma {:induction false} ShuffleFromEmpty()
    ensures Replay(SHUFFLE) == Bares(SHUFFLED) && CompatibleLog([], SHUFFLE)
  {
    hide Fold, Compatible;
    ShuffleStart();
    FoldUpsert([], SHUFFLE, 3, [0, 2], "a", 1);
    FoldUpsert([], SHUFFLE, 4, [1, 2], "c", 0);
    assert SHUFFLE[..5] == SHUFFLE;
  }

  lemma ShuffleAgainStart()
    ensures Fold(Bares(SHUFFLED), SHUFFLE[..3]) == [Bare(Pawn("a", 1)), Bare(Pawn("c", 2)), Bare(Pawn("b", 0))]
    ensures forall k :: 0 <= k < 3 ==> Compatible(Fold(Bares(SHUFFLED), SHUFFLE[..k]), SHUFFLE[k])
  {
    hide Fold, Compatible;
    var b := Bares(SHUFFLED);
    FoldNothing(b, SHUFFLE);
    FoldUpsert(b, SHUFFLE, 0, [1, 0], "a", 0);
    FoldUpsert(b, SHUFFLE, 1, [1, 0], "c", 2);
    FoldUpsert(b, SHUFFLE, 2, [1, 2], "b", 0);
  }

  /** Seen a second time, b gets in: c still blocks a, and moves away before b is tried. */
  lemma ShuffleAgain()
    ensures Fold(Bares(SHUFFLED), SHUFFLE) == [Bare(Pawn("a", 1)), Bare(Pawn("c", 2)), Bare(Pawn("b", 0))]
    ensures CompatibleLog(Bares(SHUFFLED), SHUFFLE)
  {
    hide Fold, Compatible;
    var b := Bares(SHUFFLED);
    ShuffleAgainStart();
    FoldUpsert(b, SHUFFLE, 3, [1, 2, 0], "a", 1);
    OwnCellRepeated(b, SHUFFLE);
    FoldUpsert(b, SHUFFLE, 4, [1, 2, 0], "c", 0);
    assert SHUFFLE[..5] == SHUFFLE;
  }

  lemma OwnCellRepeated(b: Board, log: seq<Action>)
    requires 3 < |log| && log[3] == Upsert(Pawn("a", 1))
    requires |Fold(b, log[..3])| > 0 && Fold(b, log[..3])[0] == Bare(Pawn("a", 1))
    ensures Compatible(Fold(b, log[..3]), log[3])
  {
  }

  lemma ShuffleWellformed()
    ensures Wellformed(SHUFFLE) && WellformedBoard(Bares(SHUFFLED))
  {
    UnitOverlap(At(1), At(0));
    var b := Bares(SHUFFLED);
    assert |b| == 2 && b[0] == Bare(Pawn("a", 1)) && b[1] == Bare(Pawn("c", 0));
  }

  /** The client, too, shows b after the second time, and the server does not. */
  lemma ShuffleDiverges()
    ensures !Agree(ClientFold(SnapshotBoard(SHUFFLED), SHUFFLE), Replay(SHUFFLE))
  {
    hide Fold, Wellformed, WellformedBoard, ClientFold, CompatibleLog;
    ShuffleFromEmpty();
    ShuffleAgain();
    ShuffleWellformed();
    StreamAgreesIff(SHUFFLED, SHUFFLE);
    assert SHUFFLE[..5] == SHUFFLE;
    var client, b := ClientFold(SnapshotBoard(SHUFFLED), SHUFFLE), Fold(Bares(SHUFFLED), SHUFFLE);
    assert Agree(ClientFold(SnapshotBoard(SHUFFLED), SHUFFLE[..5]), Fold(Bares(SHUFFLED), SHUFFLE[..5]));
    assert ClientPiece(client, "b") == Lookup(b, "b");
    assert Lookup(b, "b").Some? by {
      assert b[2].id == "b";
    }
    assert Lookup(Bares(SHUFFLED), "b").None?;
  }

  // ----- Exactly when it is harmless -----

  /** n requests, all empty but the m-th. */
  function OneRequest(m: nat, n: nat): (r: seq<Request>)
    ensures |r| == n
    ensures forall i :: 0 <= i < n ==> r[i] == Request("", if i == m then SHUFFLE else [])
  {
    seq(n, i => Request("", if i == m then SHUFFLE else []))
  }

  lemma {:induction false} OneRequestActions(m: nat, n: nat, k: nat)
    requires k <= m < n
    ensures Actions(OneRequest(m, n)[k..]) == SHUFFLE
    decreases m - k
  {
    var r := OneRequest(m, n)[k..];
    assert r == [r[0]] + r[1..];
    ActionsConcat([r[0]], r[1..]);
    ActionsSnoc([], r[0]);
    assert r[1..] == OneRequest(m, n)[k + 1..];
    if k < m {
      OneRequestActions(m, n, k + 1);
    } else {
      EmptyRequests(r[1..]);
    }
  }

  lemma {:induction false} EmptyRequests(requests: seq<Request>)
    requires forall i :: 0 <= i < |requests| ==> requests[i].actions == []
    ensures Actions(requests) == []
  {
    if requests != [] {
      EmptyRequests(requests[..|requests| - 1]);
    }
  }

  lemma OverlapDiverges(m: nat, n: nat)
    requires m < n
    ensures exists log: seq<Request>, snapshot: seq<Token> :: Fits(log, snapshot, n) && !Converges(log, snapshot, m)
  {
    hide CompatibleLog, Wellformed, Replay, Agree;
    var log := OneRequest(m, n);
    OneRequestActions(m, n, 0);
    OneRequestActions(m, n, m);
    assert log[0..] == log && log[..n] == log;
    ShuffleFromEmpty();
    ShuffleWellformed();
    ShuffleDiverges();
    assert Fits(log, SHUFFLED, n) && !Converges(log, SHUFFLED, m);
  }

  /** A connection that subscribed after m requests and read after n shows every client the server's
      tokens, whatever the requests were, if and only if nothing was made in between. */
  lemma {:induction false} ConvergesIff(m: nat, n: nat)
    requires m <= n
    ensures (forall log: seq<Request>, snapshot: seq<Token> :: Fits(log, snapshot, n) ==> Converges(log, snapshot, m))
      <==> m == n
  {
    hide CompatibleLog, Wellformed, Replay, Agree, Actions, NetworkBoard;
    if m == n {
      forall log: seq<Request>, snapshot: seq<Token> | Fits(log, snapshot, n) ensures Converges(log, snapshot, m) {
        assert log[..n] + log[n..] == log;
        ClientFollows(snapshot, log[..n], log[n..]);
      }
    } else {
      OverlapDiverges(m, n);
    }
  }
}
