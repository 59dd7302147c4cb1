/** The two folds over the same actions: the client's applyAction (web/src/ui/board/board-state.ts:47-133)
    and the server's create_room (api/src/room.py:54-92), pings and colours aside. */
module ClientServerAgreement {
  import opened Sequences
  import opened Components
  import opened Board
  import opened PosStr
  import opened ClientTables
  import opened Wire

  function PieceOf(t: ClientToken): Piece
  {
    Piece(t.id, t.kind, t.contents, UnitBox(t.pos))
  }

  function ClientPiece(b: BoardState, id: string): Option<Piece>
  {
    if IsToken(b.entityById, id) then Some(PieceOf(b.entityById[id].token)) else None
  }

  /** Client and server hold the same tokens at the same cells. */
  ghost predicate Agree(client: BoardState, server: Board)
  {
    forall id :: ClientPiece(client, id) == Lookup(server, id)
  }

  /** The server refuses an upsert onto the token's own cell, the client repeats it; a ping takes the
      place of a token with its id on the client only. Otherwise the two do the same. */
  ghost predicate Compatible(server: Board, a: Action)
  {
    match a
    case Upsert(token) =>
      Lookup(server, token.id).Some? && Lookup(server, token.id).value.box == token.box ==>
        Lookup(server, token.id) == Some(Bare(token))
    case Delete(_) => true
    case PingAction(ping) => Lookup(server, ping.id).None?
  }

  // ----- Looking up pieces after an action -----

  lemma LookupPlaced(b: Board, p: Piece, id: string)
    requires Distinct(b) && !Blocked(b, p.box)
    ensures Lookup(Place(b, p), id) == if id == p.id then Some(p) else Lookup(b, id)
  {
    hide Blocked;
    var b', k := Place(b, p), Find(b, p.id);
    PlacedDistinct(b, p);
    if id == p.id {
      assert b'[k] == p;
      FindUnique(b', k);
    } else {
      var i := Find(b, id);
      if i < |b| {
        assert b'[i] == b[i];
        FindUnique(b', i);
      } else {
        assert forall j :: 0 <= j < |b'| ==> b'[j].id != id;
      }
    }
  }

  lemma PlacedDistinct(b: Board, p: Piece)
    requires Distinct(b)
    ensures Distinct(Place(b, p))
  {
    hide Blocked;
    var k := Find(b, p.id);
    assert forall i :: 0 <= i < |b| && i != k ==> b[i].id != p.id;
  }

  lemma ClientPiecePlain(b: BoardState, b': BoardState, id: string)
    requires PlainEntities(b.entityById) == PlainEntities(b'.entityById)
    ensures ClientPiece(b, id) == ClientPiece(b', id)
  {
    var p := PlainEntities(b.entityById);
    assert id in p <==> id in b.entityById;
    assert id in p <==> id in b'.entityById;
    if id in p {
      assert PlainEntity(b.entityById[id]) == p[id] == PlainEntity(b'.entityById[id]);
    }
  }

  lemma UpsertedPiece(b: BoardState, e: Entity, isConfirmed: bool, id: string)
    ensures ClientPiece(UpsertEntity(b, e, isConfirmed), id) ==
      if Collides(b, e) || id != EntityId(e) then ClientPiece(b, id)
      else if e.TokenEntity? then Some(PieceOf(e.token))
      else None
  {
    hide ToPosStr, ContentId, Remove, Tint, UnusedColors, Insert, DeleteEntity, ClientPiece;
    if !Collides(b, e) {
      var b' := Insert(DeleteEntity(b, EntityId(e)), e);
      InsertedPiece(b, e, id);
      if e.TokenEntity? {
        var ids := CharIds(b', ContentId(e.token.contents));
        TintIsPlain(b'.entityById, ids, UnusedColors(b'.entityById, ids, PALETTE));
        ClientPiecePlain(ColorList(b', ids), b', id);
      }
    }
  }

  lemma InsertedPiece(b: BoardState, e: Entity, id: string)
    ensures ClientPiece(Insert(DeleteEntity(b, EntityId(e)), e), id) ==
      if id != EntityId(e) then ClientPiece(b, id)
      else if e.TokenEntity? then Some(PieceOf(e.token))
      else None
  {
    hide ToPosStr, ContentId, Remove;
  }

  // ----- Collisions -----

  lemma UnitOverlap(p: Cell, q: Cell)
    ensures Overlap(UnitBox(p), UnitBox(q)) <==> p == q
  {
    if p == q {
      assert InBox(p, UnitBox(p));
    }
  }

  /** The server's box test and the client's position key find the same occupant. */
  lemma SameOccupant(client: BoardState, server: Board, pos: Cell)
    requires Valid(client) && Distinct(server) && Agree(client, server)
    ensures Blocked(server, UnitBox(pos)) <==> ToPosStr(pos) in client.tokenIdsByPosStr
    ensures ToPosStr(pos) in client.tokenIdsByPosStr ==>
      var owner := client.tokenIdsByPosStr[ToPosStr(pos)];
      owner != "" && ClientPiece(client, owner).Some? && ClientPiece(client, owner).value.box == UnitBox(pos)
  {
    hide ToPosStr, ListsAgree;
    if Blocked(server, UnitBox(pos)) {
      var i :| 0 <= i < |server| && Overlap(server[i].box, UnitBox(pos));
      FindUnique(server, i);
      var id := server[i].id;
      assert ClientPiece(client, id) == Lookup(server, id) == Some(server[i]);
      UnitOverlap(client.entityById[id].token.pos, pos);
      assert IsToken(client.entityById, id);
    }
    if ToPosStr(pos) in client.tokenIdsByPosStr {
      var id := client.tokenIdsByPosStr[ToPosStr(pos)];
      assert IsToken(client.entityById, id);
      ToPosStrInjective(client.entityById[id].token.pos, pos);
      assert Lookup(server, id) == ClientPiece(client, id);
      var i := Find(server, id);
      UnitOverlap(pos, pos);
      assert Overlap(server[i].box, UnitBox(pos));
    }
  }

  lemma UpsertAgreesIff(client: BoardState, server: Board, t: Token, isConfirmed: bool)
    requires Valid(client) && Distinct(server) && Agree(client, server)
    requires t.id != "" && UnitSized(Upsert(t))
    ensures Agree(ApplyAction(client, ToAction(Upsert(t)), isConfirmed), Step(server, Upsert(t)))
      <==> Compatible(server, Upsert(t))
  {
    var token := ToAction(Upsert(t)).token;
    var e := TokenEntity(token);
    var client', server' := UpsertEntity(client, e, isConfirmed), Place(server, Bare(t));
    SameOccupant(client, server, token.pos);
    assert PieceOf(token) == Bare(t);
    assert ClientPiece(client, t.id) == Lookup(server, t.id);
    if Blocked(server, t.box) {
      var owner := client.tokenIdsByPosStr[ToPosStr(token.pos)];
      assert Collides(client, e) <==> owner != t.id;
      OwnCellIff(client, server, t, owner, token.pos);
      hide Valid, Blocked, UpsertEntity, Collides;
      forall id ensures ClientPiece(client', id) ==
        if owner != t.id || id != t.id then Lookup(server, id) else Some(Bare(t))
      {
        UpsertedPiece(client, e, isConfirmed, id);
        assert ClientPiece(client, id) == Lookup(server, id);
      }
    } else {
      FreeCellCompatible(server, t);
      assert !Collides(client, e);
      hide Valid, Blocked, UpsertEntity, Collides, Place;
      forall id ensures ClientPiece(client', id) == Lookup(server', id) {
        UpsertedPiece(client, e, isConfirmed, id);
        LookupPlaced(server, Bare(t), id);
        assert ClientPiece(client, id) == Lookup(server, id);
      }
    }
  }

  lemma FreeCellCompatible(server: Board, t: Token)
    requires !Blocked(server, t.box) && UnitSized(Upsert(t))
    ensures Compatible(server, Upsert(t))
  {
    UnitOverlap(Corner(t.box), Corner(t.box));
    assert Overlap(t.box, t.box);
    assert forall i :: 0 <= i < |server| ==> server[i].box != t.box;
  }

  /** On an occupied cell: the occupant is the token itself exactly when the token stands there. */
  lemma OwnCellIff(client: BoardState, server: Board, t: Token, owner: string, pos: Cell)
    requires Valid(client) && Agree(client, server) && t.box == UnitBox(pos)
    requires ToPosStr(pos) in client.tokenIdsByPosStr && owner == client.tokenIdsByPosStr[ToPosStr(pos)]
    requires ClientPiece(client, owner).Some? && ClientPiece(client, owner).value.box == UnitBox(pos)
    ensures owner == t.id <==> Lookup(server, t.id).Some? && Lookup(server, t.id).value.box == t.box
  {
    assert ClientPiece(client, t.id) == Lookup(server, t.id);
    if Lookup(server, t.id).Some? && Lookup(server, t.id).value.box == t.box {
      OneTokenPerPosition(client, owner, t.id);
    }
  }

  lemma PingAgreesIff(client: BoardState, server: Board, ping: Ping, isConfirmed: bool)
    requires Agree(client, server)
    ensures Agree(ApplyAction(client, ToAction(PingAction(ping)), isConfirmed), server)
      <==> Compatible(server, PingAction(ping))
  {
    hide UpsertEntity, Find;
    var client' := UpsertEntity(client, PingEntity(ping), isConfirmed);
    forall id ensures ClientPiece(client', id) == if id == ping.id then None else Lookup(server, id) {
      UpsertedPiece(client, PingEntity(ping), isConfirmed, id);
      assert ClientPiece(client, id) == Lookup(server, id);
    }
  }

  lemma DeleteAgrees(client: BoardState, server: Board, id: string)
    requires Distinct(server) && Agree(client, server)
    ensures Agree(DeleteEntity(client, id), Take(server, id))
  {
    hide Remove, ToPosStr, ContentId, Take;
    forall other ensures ClientPiece(DeleteEntity(client, id), other) == Lookup(Take(server, id), other) {
      LookupTaken(server, id, other);
      assert ClientPiece(client, other) == Lookup(server, other);
    }
  }

  /** One action on boards that agree: they still agree afterwards if and only if the action is not
      an upsert that changes a token on its own cell, nor a ping with a live token's id. */
  lemma StepAgreesIff(client: BoardState, server: Board, a: Action, isConfirmed: bool)
    requires Valid(client) && Distinct(server) && Agree(client, server)
    requires (a.Upsert? ==> a.token.id != "") && UnitSized(a)
    ensures Agree(ApplyAction(client, ToAction(a), isConfirmed), Step(server, a)) <==> Compatible(server, a)
  {
    match a
    case Upsert(t) => UpsertAgreesIff(client, server, t, isConfirmed);
    case PingAction(ping) => PingAgreesIff(client, server, ping, isConfirmed);
    case Delete(id) => DeleteAgrees(client, server, id);
  }

  // ----- Whole logs -----

  ghost predicate UnitSizedLog(log: seq<Action>)
  {
    forall i :: 0 <= i < |log| ==> UnitSized(log[i])
  }

  ghost predicate CompatibleLog(server: Board, log: seq<Action>)
  {
    forall k :: 0 <= k < |log| ==> Compatible(Fold(server, log[..k]), log[k])
  }

  /** The client board after the actions of a log, as they come off the wire. */
  function ClientFold(client: BoardState, log: seq<Action>): BoardState
  {
    ApplyAll(client, ToActions(log), true)
  }

  lemma ClientFoldNext(client: BoardState, log: seq<Action>, k: nat)
    requires k < |log|
    ensures ClientFold(client, log[..k + 1]) == ApplyAction(ClientFold(client, log[..k]), ToAction(log[k]), true)
  {
    assert ToActions(log[..k + 1])[..k] == ToActions(log[..k]);
  }

  lemma ClientFoldValid(client: BoardState, log: seq<Action>)
    requires Valid(client) && Named(log)
    ensures Valid(ClientFold(client, log))
  {
    forall i | 0 <= i < |log| && ToActions(log)[i].UpsertToken? ensures ToActions(log)[i].token.id != "" {
      assert log[i].Upsert?;
    }
    ApplyAllValid(client, ToActions(log), true);
  }

  lemma BothNext(client: BoardState, server: Board, log: seq<Action>, k: nat)
    requires Valid(client) && Distinct(server) && Disjoint(server) && Named(log) && UnitSizedLog(log) && k < |log|
    requires Agree(ClientFold(client, log[..k]), Fold(server, log[..k]))
    ensures Agree(ClientFold(client, log[..k + 1]), Fold(server, log[..k + 1]))
      <==> Compatible(Fold(server, log[..k]), log[k])
  {
    hide ApplyAction, Step, Compatible, Agree, ApplyAll, Valid, Disjoint;
    ClientFoldNext(client, log, k);
    assert log[..k + 1] == log[..k] + [log[k]];
    FoldSnoc(server, log[..k], log[k]);
    ClientFoldValid(client, log[..k]);
    FoldKeepsDisjoint(server, log[..k]);
    StepAgreesIff(ClientFold(client, log[..k]), Fold(server, log[..k]), log[k], true);
  }

  lemma {:induction false} CompatibleLogAgrees(client: BoardState, server: Board, log: seq<Action>, k: nat)
    requires Valid(client) && Distinct(server) && Disjoint(server) && Named(log) && UnitSizedLog(log) && k <= |log|
    requires Agree(client, server) && CompatibleLog(server, log)
    ensures Agree(ClientFold(client, log[..k]), Fold(server, log[..k]))
  {
    hide Agree, Valid, Disjoint, Compatible;
    if k > 0 {
      CompatibleLogAgrees(client, server, log, k - 1);
      BothNext(client, server, log, k - 1);
    }
  }

  /** Whole logs, from boards that agree: the two folds agree after every prefix if and only if every
      upsert onto a token's own cell repeats its kind and contents and no ping uses the id of a live
      token. */
  lemma {:induction false} FoldsAgreeIff(client: BoardState, server: Board, log: seq<Action>)
    requires Valid(client) && Distinct(server) && Disjoint(server) && Agree(client, server)
    requires Named(log) && UnitSizedLog(log)
    ensures (forall k :: 0 <= k <= |log| ==> Agree(ClientFold(client, log[..k]), Fold(server, log[..k])))
      <==> CompatibleLog(server, log)
  {
    hide Agree, Valid, Disjoint, Compatible, ClientFold;
    if CompatibleLog(server, log) {
      forall k | 0 <= k <= |log| ensures Agree(ClientFold(client, log[..k]), Fold(server, log[..k])) {
        CompatibleLogAgrees(client, server, log, k);
      }
    }
    if forall k :: 0 <= k <= |log| ==> Agree(ClientFold(client, log[..k]), Fold(server, log[..k])) {
      forall k | 0 <= k < |log| ensures Compatible(Fold(server, log[..k]), log[k]) {
        assert Agree(ClientFold(client, log[..k]), Fold(server, log[..k]));
        assert Agree(ClientFold(client, log[..k + 1]), Fold(server, log[..k + 1]));
        BothNext(client, server, log, k);
      }
    }
  }

  // ----- Tokens that never change their looks -----

  /** Every upsert of an id has the same kind and contents, and no ping has the id of a token. */
  ghost predicate Steady(log: seq<Action>)
  {
    forall i, j :: 0 <= i < |log| && 0 <= j < |log| && log[i].Upsert? ==>
      && (log[j].Upsert? && log[i].token.id == log[j].token.id ==>
            log[i].token.kind == log[j].token.kind && log[i].token.contents == log[j].token.contents)
      && (log[j].PingAction? ==> log[i].token.id != log[j].ping.id)
  }

  ghost predicate LooksLikeOneOf(p: Piece, log: seq<Action>)
  {
    exists j :: 0 <= j < |log| && log[j].Upsert? && Bare(log[j].token).(box := p.box) == p
  }

  lemma StepPieces(b: Board, a: Action, p: Piece)
    requires p in Step(b, a)
    ensures p in b || (a.Upsert? && p == Bare(a.token))
  {
    hide Blocked;
  }

  lemma {:induction false} FoldLooks(log: seq<Action>, p: Piece)
    requires p in Fold([], log)
    ensures LooksLikeOneOf(p, log)
  {
    hide Step;
    var front, last := log[..|log| - 1], log[|log| - 1];
    StepPieces(Fold([], front), last, p);
    if p in Fold([], front) {
      FoldLooks(front, p);
      var j :| 0 <= j < |front| && front[j].Upsert? && Bare(front[j].token).(box := p.box) == p;
      assert log[j] == front[j];
    } else {
      assert log[|log| - 1].Upsert?;
    }
  }

  lemma SteadyIsCompatible(log: seq<Action>)
    requires Steady(log)
    ensures CompatibleLog([], log)
  {
    hide Fold, Find;
    forall k | 0 <= k < |log| ensures Compatible(Fold([], log[..k]), log[k]) {
      var b := Fold([], log[..k]);
      var id := match log[k] case Upsert(t) => t.id case Delete(id) => id case PingAction(p) => p.id;
      if Lookup(b, id).Some? {
        FoldLooks(log[..k], b[Find(b, id)]);
      }
    }
  }

  /** From empty boards, tokens that keep their kind and contents and pings with ids of their own:
      client and server hold the same tokens at the same cells after every action. */
  lemma SteadyLogsAgree(log: seq<Action>, k: nat)
    requires Named(log) && UnitSizedLog(log) && Steady(log) && k <= |log|
    ensures Agree(ClientFold(EMPTY_BOARD, log[..k]), Replay(log[..k]))
  {
    hide Steady, Valid, Compatible;
    SteadyIsCompatible(log);
    EmptyBoardValid();
    CompatibleLogAgrees(EMPTY_BOARD, [], log, k);
  }
}
