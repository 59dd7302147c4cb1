/** The four cross-indexed tables of api/src/room.py as a value, the operations on them, and what
    every replay keeps. */
module RoomTables {
  import opened Sequences
  import opened Components
  import opened Coloring
  import opened Board

  // ----- Unit blocks -----

  function Column(x: int, y: int, startZ: int, endZ: int): seq<Cell>
    decreases endZ - startZ
  {
    if startZ >= endZ then [] else Column(x, y, startZ, endZ - 1) + [Cell(x, y, endZ - 1)]
  }

  function Slab(x: int, startY: int, endY: int, startZ: int, endZ: int): seq<Cell>
    decreases endY - startY
  {
    if startY >= endY then []
    else Slab(x, startY, endY - 1, startZ, endZ) + Column(x, endY - 1, startZ, endZ)
  }

  function Blocks(startX: int, endX: int, startY: int, endY: int, startZ: int, endZ: int): seq<Cell>
    decreases endX - startX
  {
    if startX >= endX then []
    else Blocks(startX, endX - 1, startY, endY, startZ, endZ) + Slab(endX - 1, startY, endY, startZ, endZ)
  }

  function UnitBlocks(b: Box): seq<Cell>
  {
    Blocks(b.startX, b.endX, b.startY, b.endY, b.startZ, b.endZ)
  }

  lemma {:induction false} ColumnMembers(x: int, y: int, startZ: int, endZ: int)
    ensures forall c :: c in Column(x, y, startZ, endZ) <==> c.x == x && c.y == y && startZ <= c.z < endZ
    decreases endZ - startZ
  {
    if startZ < endZ {
      ColumnMembers(x, y, startZ, endZ - 1);
    }
  }

  lemma {:induction false} SlabMembers(x: int, startY: int, endY: int, startZ: int, endZ: int)
    ensures forall c ::
      c in Slab(x, startY, endY, startZ, endZ) <==> c.x == x && startY <= c.y < endY && startZ <= c.z < endZ
    decreases endY - startY
  {
    if startY < endY {
      SlabMembers(x, startY, endY - 1, startZ, endZ);
      ColumnMembers(x, endY - 1, startZ, endZ);
    }
  }

  lemma {:induction false} BlocksMembers(startX: int, endX: int, startY: int, endY: int, startZ: int, endZ: int)
    ensures forall c :: c in Blocks(startX, endX, startY, endY, startZ, endZ) <==>
      startX <= c.x < endX && startY <= c.y < endY && startZ <= c.z < endZ
    decreases endX - startX
  {
    if startX < endX {
      BlocksMembers(startX, endX - 1, startY, endY, startZ, endZ);
      SlabMembers(endX - 1, startY, endY, startZ, endZ);
    }
  }

  /** The unit blocks of a box are exactly its cells. */
  lemma UnitBlocksMembers(b: Box)
    ensures forall c :: c in UnitBlocks(b) <==> InBox(c, b)
  {
    BlocksMembers(b.startX, b.endX, b.startY, b.endY, b.startZ, b.endZ);
  }

  // ----- The tables and their operations -----

  /** game_state is insertion-ordered: order holds its keys, oldest first. */
  datatype RoomState = RoomState(
    order: seq<string>,
    tokens: map<string, Token>,
    cells: map<string, seq<Cell>>,
    owner: map<Cell, string>,
    icons: map<string, seq<string>>)

  const EMPTY_ROOM := RoomState([], map[], map[], map[], map[])

  /** An operation raises when a look-up in the icon table or in game_state fails. */
  datatype Outcome = Ok(room: RoomState) | Raised

  function IconList(s: RoomState, contentId: string): seq<string>
  {
    if contentId in s.icons then s.icons[contentId] else []
  }

  /** A cell counts as taken when its owner's id is truthy. */
  predicate Occupied(s: RoomState, c: Cell)
  {
    c in s.owner && s.owner[c] != ""
  }

  predicate ValidPosition(s: RoomState, t: Token)
  {
    forall c | c in UnitBlocks(t.box) :: !Occupied(s, c)
  }

  function CellsOf(s: RoomState, id: string): seq<Cell>
  {
    if id in s.cells then s.cells[id] else []
  }

  function RemovePositions(s: RoomState, id: string): RoomState
  {
    s.(owner := s.owner - (set c | c in CellsOf(s, id)))
  }

  function DeleteToken(s: RoomState, id: string): Outcome
  {
    var s' := RemovePositions(s, id).(
      cells := s.cells - {id}, tokens := s.tokens - {id}, order := Remove(s.order, id));
    if id in s.tokens && s.tokens[id].kind.Character? then
      var contentId := ContentId(s.tokens[id].contents);
      if s.tokens[id].id in IconList(s, contentId) then
        Ok(s'.(icons := s.icons[contentId := Remove(s.icons[contentId], s.tokens[id].id)]))
      else Raised
    else Ok(s')
  }

  function PutToken(s: RoomState, t: Token): RoomState
  {
    var blocks := UnitBlocks(t.box);
    RoomState(
      if t.id in s.tokens then s.order else s.order + [t.id],
      s.tokens[t.id := t],
      s.cells[t.id := blocks],
      s.owner + (map c | c in blocks :: t.id),
      s.icons)
  }

  ghost predicate AllLive(s: RoomState, ids: seq<string>)
  {
    forall i :: 0 <= i < |ids| ==> ids[i] in s.tokens
  }

  ghost function Pick(s: RoomState, ids: seq<string>): (r: seq<Token>)
    requires AllLive(s, ids)
    ensures |r| == |ids|
    ensures forall i :: 0 <= i < |r| ==> r[i] == s.tokens[ids[i]]
  {
    seq(|ids|, i requires 0 <= i < |ids| => s.tokens[ids[i]])
  }

  /** The tokens called ids become those of painted. */
  ghost function Paint(tokens: map<string, Token>, ids: seq<string>, painted: seq<Token>): map<string, Token>
    requires |ids| == |painted|
  {
    if ids == [] then tokens
    else
      var n := |ids| - 1;
      Paint(tokens, ids[..n], painted[..n])[ids[n] := painted[n]]
  }

  /** A new character joins the list of its icon, and the tokens on that list are coloured,
      the new one first. */
  ghost function JoinIcon(s: RoomState, t: Token): Outcome
  {
    var contentId := ContentId(t.contents);
    var ids := IconList(s, contentId);
    if ids == [] then Ok(PutToken(s.(icons := s.icons[contentId := [t.id]]), t))
    else if !AllLive(s, ids) then Raised
    else
      var painted := AssignColors([t] + Pick(s, ids));
      var s' := s.(icons := s.icons[contentId := ids + [t.id]],
                   tokens := Paint(s.tokens, ids, painted[1..]));
      Ok(PutToken(s', t.(color := painted[0].color)))
  }

  ghost function CreateOrUpdateToken(s: RoomState, t: Token): Outcome
  {
    if !ValidPosition(s, t) then Ok(s)
    else if t.id in s.tokens then Ok(PutToken(RemovePositions(s, t.id), t))
    else if t.kind.Character? then JoinIcon(s, t)
    else Ok(PutToken(s, t))
  }

  ghost function StepRoom(s: RoomState, a: Action): Outcome
  {
    match a
    case Upsert(token) => CreateOrUpdateToken(s, token)
    case Delete(id) => DeleteToken(s, id)
    case PingAction(_) => Ok(s)
  }

  ghost function Run(s: RoomState, log: seq<Action>): Outcome
  {
    if log == [] then Ok(s)
    else
      var before := Run(s, log[..|log| - 1]);
      if before.Ok? then StepRoom(before.room, log[|log| - 1]) else Raised
  }

  /** create_room. */
  ghost function CreateRoom(log: seq<Action>): Outcome
  {
    Run(EMPTY_ROOM, log)
  }

  lemma {:induction false} RunConcat(s: RoomState, x: seq<Action>, y: seq<Action>)
    ensures Run(s, x + y) == (if Run(s, x).Ok? then Run(Run(s, x).room, y) else Raised)
  {
    if y == [] {
      assert x + y == x;
    } else {
      var front := y[..|y| - 1];
      RunConcat(s, x, front);
      assert (x + y)[..|x + y| - 1] == x + front;
    }
  }

  // ----- What every room keeps -----

  ghost predicate Keyed(s: RoomState)
  {
    && NoDuplicates(s.order)
    && (forall i :: 0 <= i < |s.order| ==> s.order[i] in s.tokens)
    && (forall id :: id in s.tokens ==> IndexOf(s.order, id) < |s.order|)
    && (forall id :: id in s.tokens ==> s.tokens[id].id == id && id != "")
  }

  ghost predicate CellsAgree(tokens: map<string, Token>, cells: map<string, seq<Cell>>)
  {
    && cells.Keys == tokens.Keys
    && (forall id :: id in tokens ==> cells[id] == UnitBlocks(tokens[id].box))
  }

  ghost predicate OwnerAgrees(tokens: map<string, Token>, owner: map<Cell, string>)
  {
    && (forall c :: c in owner ==> owner[c] in tokens && InBox(c, tokens[owner[c]].box))
    && (forall id, c :: id in tokens && InBox(c, tokens[id].box) ==> c in owner && owner[c] == id)
  }

  /** id→cells holds the unit blocks of each live token, and cell→id is exactly the inverse of the
      boxes of the live tokens. */
  ghost predicate Indexed(s: RoomState)
  {
    Keyed(s) && CellsAgree(s.tokens, s.cells) && OwnerAgrees(s.tokens, s.owner)
  }

  ghost function Pieces(s: RoomState): (r: Board)
    requires Keyed(s)
    ensures |r| == |s.order|
    ensures forall i :: 0 <= i < |r| ==> s.order[i] in s.tokens && r[i] == Bare(s.tokens[s.order[i]])
  {
    seq(|s.order|, i requires 0 <= i < |s.order| => Bare(s.tokens[s.order[i]]))
  }

  /** list(room.game_state.values()). */
  function Values(s: RoomState): (r: seq<Token>)
    requires forall i :: 0 <= i < |s.order| ==> s.order[i] in s.tokens
    ensures |r| == |s.order|
    ensures forall i :: 0 <= i < |r| ==> r[i] == s.tokens[s.order[i]]
  {
    seq(|s.order|, i requires 0 <= i < |s.order| => s.tokens[s.order[i]])
  }

  /** The live characters whose contents have this id, oldest first. */
  ghost function CharactersWith(order: seq<string>, tokens: map<string, Token>, contentId: string): seq<string>
  {
    if order == [] then []
    else
      var rest := CharactersWith(order[..|order| - 1], tokens, contentId);
      var id := order[|order| - 1];
      if IsCharacterWith(tokens, id, contentId) then rest + [id] else rest
  }

  ghost predicate IsCharacterWith(tokens: map<string, Token>, id: string, contentId: string)
  {
    id in tokens && tokens[id].kind.Character? && ContentId(tokens[id].contents) == contentId
  }

  /** Every icon list holds the live characters with that content, oldest first. */
  ghost predicate Listed(s: RoomState)
  {
    forall contentId :: IconList(s, contentId) == CharactersWith(s.order, s.tokens, contentId)
  }

  // ----- Cells and boxes agree -----

  lemma PiecesFind(s: RoomState, id: string)
    requires Keyed(s)
    ensures Find(Pieces(s), id) == IndexOf(s.order, id)
    ensures Find(Pieces(s), id) < |s.order| <==> id in s.tokens
    ensures Lookup(Pieces(s), id) == if id in s.tokens then Some(Bare(s.tokens[id])) else None
  {
    hide Blocks;
    var i, k := Find(Pieces(s), id), IndexOf(s.order, id);
    if i < |s.order| {
      assert s.order[i] == id;
    }
    if k < |s.order| {
      assert Pieces(s)[k].id == id;
    }
  }

  lemma OwnersDisjoint(tokens: map<string, Token>, owner: map<Cell, string>, a: string, b: string)
    requires OwnerAgrees(tokens, owner) && a in tokens && b in tokens && a != b
    ensures !Overlap(tokens[a].box, tokens[b].box)
  {
    hide Blocks;
    forall c | InBox(c, tokens[a].box) ensures !InBox(c, tokens[b].box) {
      assert owner[c] == a;
    }
  }

  lemma {:induction false} PiecesDistinct(s: RoomState)
    requires Indexed(s)
    ensures Distinct(Pieces(s)) && Disjoint(Pieces(s))
  {
    hide Blocks;
    var b := Pieces(s);
    forall i, j | 0 <= i < j < |b|
      ensures b[i].id != b[j].id && !Overlap(b[i].box, b[j].box)
    {
      OwnersDisjoint(s.tokens, s.owner, s.order[i], s.order[j]);
    }
  }

  /** The block-by-block test finds a free place exactly when no token's box overlaps. */
  lemma FreeCellsIff(tokens: map<string, Token>, owner: map<Cell, string>, box: Box, blocks: seq<Cell>)
    requires OwnerAgrees(tokens, owner)
    requires forall c :: c in blocks <==> InBox(c, box)
    ensures (exists c :: c in blocks && c in owner) <==> exists id :: id in tokens && Overlap(tokens[id].box, box)
  {
    hide Blocks;
    if c :| c in blocks && c in owner {
      assert InBox(c, tokens[owner[c]].box) && InBox(c, box);
      assert Overlap(tokens[owner[c]].box, box);
    }
    if id :| id in tokens && Overlap(tokens[id].box, box) {
      var c :| InBox(c, tokens[id].box) && InBox(c, box);
      assert c in blocks && c in owner;
    }
  }

  lemma OccupiedIffOwned(s: RoomState, c: Cell)
    requires Keyed(s) && OwnerAgrees(s.tokens, s.owner)
    ensures Occupied(s, c) <==> c in s.owner
  {
    hide Blocks;
  }

  lemma BlockedIff(s: RoomState, box: Box)
    requires Keyed(s)
    ensures Blocked(Pieces(s), box) <==> exists id :: id in s.tokens && Overlap(s.tokens[id].box, box)
  {
    hide Blocks;
    var b := Pieces(s);
    if i :| 0 <= i < |b| && Overlap(b[i].box, box) {
      assert s.order[i] in s.tokens && Overlap(s.tokens[s.order[i]].box, box);
    }
    if id :| id in s.tokens && Overlap(s.tokens[id].box, box) {
      assert b[IndexOf(s.order, id)].box == s.tokens[id].box;
    }
  }

  lemma ValidPositionIff(s: RoomState, t: Token)
    requires Indexed(s)
    ensures ValidPosition(s, t) <==> !Blocked(Pieces(s), t.box)
    ensures ValidPosition(s, t) ==> forall c :: InBox(c, t.box) ==> c !in s.owner
  {
    hide Blocks;
    UnitBlocksMembers(t.box);
    FreeCellsIff(s.tokens, s.owner, t.box, UnitBlocks(t.box));
    BlockedIff(s, t.box);
    forall c ensures Occupied(s, c) <==> c in s.owner {
      OccupiedIffOwned(s, c);
    }
  }

  lemma OwnerAfterPut(tokens: map<string, Token>, owner: map<Cell, string>, t: Token, blocks: seq<Cell>)
    requires OwnerAgrees(tokens, owner) && t.id !in tokens
    requires forall c :: c in blocks <==> InBox(c, t.box)
    requires forall c :: InBox(c, t.box) ==> c !in owner
    ensures OwnerAgrees(tokens[t.id := t], owner + (map c | c in blocks :: t.id))
  {
    hide Blocks;
  }

  lemma OwnerAfterRemove(tokens: map<string, Token>, owner: map<Cell, string>, id: string, blocks: seq<Cell>)
    requires OwnerAgrees(tokens, owner) && id in tokens
    requires forall c :: c in blocks <==> InBox(c, tokens[id].box)
    ensures OwnerAgrees(tokens - {id}, owner - (set c | c in blocks))
  {
    hide Blocks;
    var owner' := owner - (set c | c in blocks);
    forall c | c in owner' ensures owner'[c] in tokens - {id} && InBox(c, tokens[owner'[c]].box) {
      assert owner[c] == owner'[c] && c !in blocks;
    }
    forall other, c | other in tokens - {id} && InBox(c, tokens[other].box)
      ensures c in owner' && owner'[c] == other
    {
      assert owner[c] == other;
      assert c !in blocks;
    }
  }

  lemma KeyedAfterPut(s: RoomState, t: Token)
    requires Keyed(s) && t.id != ""
    ensures Keyed(PutToken(s, t))
  {
    hide UnitBlocks, IndexOf, NoDuplicates;
    if t.id !in s.tokens {
      assert t.id !in s.order;
      IndexOfSnoc(s.order, t.id);
      NoDuplicatesSnoc(s.order, t.id);
    }
  }

  lemma {:induction false} PiecesAfterPut(s: RoomState, t: Token)
    requires Keyed(s) && t.id != "" && Keyed(PutToken(s, t))
    requires !Blocked(Pieces(s), t.box)
    ensures Pieces(PutToken(s, t)) == Place(Pieces(s), Bare(t))
  {
    hide Blocks;
    PiecesFind(s, t.id);
    var b, b' := Pieces(s), Pieces(PutToken(s, t));
    if t.id in s.tokens {
      assert b' == b[IndexOf(s.order, t.id) := Bare(t)];
    } else {
      assert b' == b + [Bare(t)];
    }
  }

  lemma CellsAfterPut(s: RoomState, t: Token)
    requires CellsAgree(s.tokens, s.cells)
    ensures CellsAgree(PutToken(s, t).tokens, PutToken(s, t).cells)
  {
    hide Blocks;
  }

  lemma OwnerAfterUpdate(s: RoomState, t: Token)
    requires OwnerAgrees(s.tokens, s.owner) && CellsAgree(s.tokens, s.cells) && t.id in s.tokens
    requires forall c :: InBox(c, t.box) ==> c !in s.owner
    ensures var s' := PutToken(RemovePositions(s, t.id), t); OwnerAgrees(s'.tokens, s'.owner)
  {
    hide InBox, Blocks;
    UnitBlocksMembers(t.box);
    UnitBlocksMembers(s.tokens[t.id].box);
    OwnerAfterRemove(s.tokens, s.owner, t.id, s.cells[t.id]);
    hide OwnerAgrees, CellsAgree;
    OwnerAfterPut(s.tokens - {t.id}, RemovePositions(s, t.id).owner, t, UnitBlocks(t.box));
    assert (s.tokens - {t.id})[t.id := t] == s.tokens[t.id := t];
  }

  /** Giving back a token's cells and putting it on free ones. */
  lemma {:induction false} UpdateIndexed(s: RoomState, t: Token)
    requires Indexed(s) && t.id in s.tokens && ValidPosition(s, t)
    ensures Indexed(PutToken(RemovePositions(s, t.id), t))
    ensures Pieces(PutToken(RemovePositions(s, t.id), t)) == Place(Pieces(s), Bare(t))
  {
    hide Blocks, IndexOf, Find, Overlap, Blocked, InBox;
    var s1 := RemovePositions(s, t.id);
    ValidPositionIff(s, t);
    PiecesSame(s, s1);
    KeyedAfterPut(s1, t);
    PiecesAfterPut(s1, t);
    CellsAfterPut(s1, t);
    OwnerAfterUpdate(s, t);
  }

  lemma {:induction false} InsertIndexed(s: RoomState, t: Token)
    requires Indexed(s) && t.id !in s.tokens && t.id != "" && ValidPosition(s, t)
    ensures Indexed(PutToken(s, t))
    ensures Pieces(PutToken(s, t)) == Place(Pieces(s), Bare(t))
  {
    hide Blocks, IndexOf, Find, Overlap, Blocked, InBox;
    ValidPositionIff(s, t);
    KeyedAfterPut(s, t);
    PiecesAfterPut(s, t);
    CellsAfterPut(s, t);
    UnitBlocksMembers(t.box);
    OwnerAfterPut(s.tokens, s.owner, t, UnitBlocks(t.box));
  }

  lemma {:induction false} PaintKeepsBare(tokens: map<string, Token>, ids: seq<string>, painted: seq<Token>)
    requires |ids| == |painted|
    requires forall i :: 0 <= i < |ids| ==> ids[i] in tokens && painted[i] == tokens[ids[i]].(color := painted[i].color)
    ensures var r := Paint(tokens, ids, painted);
      && r.Keys == tokens.Keys
      && (forall id :: id in tokens ==> r[id] == tokens[id].(color := r[id].color))
      && (forall id :: id in tokens && id !in ids ==> r[id] == tokens[id])
  {
    hide Blocks;
    if ids != [] {
      var n := |ids| - 1;
      PaintKeepsBare(tokens, ids[..n], painted[..n]);
    }
  }

  /** Repainting tokens moves nothing. */
  lemma {:induction false} RepaintIndexed(s: RoomState, s': RoomState)
    requires Indexed(s)
    requires s' == s.(tokens := s'.tokens, icons := s'.icons) && s'.tokens.Keys == s.tokens.Keys
    requires forall id :: id in s.tokens ==> s'.tokens[id] == s.tokens[id].(color := s'.tokens[id].color)
    ensures Indexed(s') && Pieces(s') == Pieces(s)
  {
    RepaintKeyed(s, s');
    SameBoxes(s.tokens, s'.tokens, s.cells, s.owner);
    hide Keyed, CellsAgree, OwnerAgrees;
  }

  lemma SameBoxes(
    tokens: map<string, Token>, tokens': map<string, Token>, cells: map<string, seq<Cell>>, owner: map<Cell, string>)
    requires CellsAgree(tokens, cells) && OwnerAgrees(tokens, owner) && tokens'.Keys == tokens.Keys
    requires forall id :: id in tokens ==> tokens'[id] == tokens[id].(color := tokens'[id].color)
    ensures CellsAgree(tokens', cells) && OwnerAgrees(tokens', owner)
  {
    hide UnitBlocks, InBox;
    assert forall id :: id in tokens ==> id in tokens' && tokens'[id].box == tokens[id].box;
  }

  lemma RepaintKeyed(s: RoomState, s': RoomState)
    requires Keyed(s) && s'.order == s.order && s'.tokens.Keys == s.tokens.Keys
    requires forall id :: id in s.tokens ==> s'.tokens[id] == s.tokens[id].(color := s'.tokens[id].color)
    ensures Keyed(s') && Pieces(s') == Pieces(s)
  {
    hide IndexOf;
  }

  lemma {:induction false} JoinIconIndexed(s: RoomState, t: Token)
    requires Indexed(s) && t.id !in s.tokens && t.id != "" && ValidPosition(s, t)
    requires JoinIcon(s, t).Ok?
    ensures Indexed(JoinIcon(s, t).room)
    ensures Pieces(JoinIcon(s, t).room) == Place(Pieces(s), Bare(t))
  {
    hide Blocks, Place, AssignColors, ContentId, Keyed, CellsAgree, OwnerAgrees;
    var contentId := ContentId(t.contents);
    var ids := IconList(s, contentId);
    if ids == [] {
      var s' := s.(icons := s.icons[contentId := [t.id]]);
      RepaintIndexed(s, s');
      InsertIndexed(s', t);
    } else {
      var list := [t] + Pick(s, ids);
      AssignColorsGuarantee(list);
      var painted := AssignColors(list);
      forall i | 0 <= i < |ids|
        ensures painted[1..][i] == s.tokens[ids[i]].(color := painted[1..][i].color)
      {
        assert list[i + 1] == s.tokens[ids[i]];
      }
      PaintKeepsBare(s.tokens, ids, painted[1..]);
      var s' := s.(icons := s.icons[contentId := ids + [t.id]], tokens := Paint(s.tokens, ids, painted[1..]));
      RepaintIndexed(s, s');
      InsertIndexed(s', t.(color := painted[0].color));
    }
  }

  lemma {:induction false} KeyedAfterRemove(s: RoomState, s': RoomState, id: string)
    requires Keyed(s) && s'.order == Remove(s.order, id) && s'.tokens == s.tokens - {id}
    ensures Keyed(s')
  {
    hide IndexOf, Remove;
    RemoveFromDistinct(s.order, id);
    forall i | 0 <= i < |s'.order| ensures s'.order[i] in s'.tokens {
      assert s'.order[i] in s'.order;
    }
    forall other | other in s'.tokens ensures IndexOf(s'.order, other) < |s'.order| {
      assert IndexOf(s.order, other) < |s.order|;
      assert other in s.order;
    }
  }

  lemma {:induction false} PiecesAfterRemove(s: RoomState, s': RoomState, id: string)
    requires Keyed(s) && s'.order == Remove(s.order, id) && s'.tokens == s.tokens - {id} && Keyed(s')
    ensures Pieces(s') == Take(Pieces(s), id)
  {
    PiecesFind(s, id);
    var k := IndexOf(s.order, id);
    if k < |s.order| {
      PiecesCut(s, s', k);
    } else {
      PiecesSame(s, s');
    }
  }

  lemma PiecesCut(s: RoomState, s': RoomState, k: nat)
    requires Keyed(s) && Keyed(s') && k < |s.order|
    requires s'.order == s.order[..k] + s.order[k + 1..]
    requires forall id :: id in s'.tokens ==> id in s.tokens && Bare(s.tokens[id]) == Bare(s'.tokens[id])
    ensures Pieces(s') == Pieces(s)[..k] + Pieces(s)[k + 1..]
  {
    hide Keyed, Pieces;
    forall i | 0 <= i < |s'.order|
      ensures Pieces(s')[i] == Pieces(s)[if i < k then i else i + 1]
    {
      assert s'.order[i] == s.order[if i < k then i else i + 1];
    }
  }

  lemma PiecesSame(s: RoomState, s': RoomState)
    requires Keyed(s) && Keyed(s') && s'.order == s.order
    requires forall id :: id in s'.tokens ==> id in s.tokens && Bare(s.tokens[id]) == Bare(s'.tokens[id])
    ensures Pieces(s') == Pieces(s)
  {
    hide Keyed, Pieces;
  }

  lemma {:induction false} DeleteIndexed(s: RoomState, id: string)
    requires Indexed(s) && DeleteToken(s, id).Ok?
    ensures Indexed(DeleteToken(s, id).room)
    ensures Pieces(DeleteToken(s, id).room) == Take(Pieces(s), id)
  {
    hide UnitBlocks, IndexOf, Find, InBox, Overlap, Keyed, OwnerAgrees;
    var s' := DeleteToken(s, id).room;
    KeyedAfterRemove(s, s', id);
    PiecesAfterRemove(s, s', id);
    if id in s.tokens {
      assert OwnerAgrees(s'.tokens, s'.owner) by {
        UnitBlocksMembers(s.tokens[id].box);
        OwnerAfterRemove(s.tokens, s.owner, id, s.cells[id]);
      }
    } else {
      assert s'.tokens == s.tokens && s'.cells == s.cells && s'.owner == s.owner;
    }
  }

  /** One action: when the tables' operation does not raise, the tables still agree and hold the
      pieces the action leaves on the board. */
  lemma {:induction false} StepRefines(s: RoomState, a: Action)
    requires Indexed(s) && StepRoom(s, a).Ok?
    requires a.Upsert? ==> a.token.id != ""
    ensures Indexed(StepRoom(s, a).room)
    ensures Pieces(StepRoom(s, a).room) == Step(Pieces(s), a)
  {
    hide Blocks;
    match a
    case Upsert(t) =>
      ValidPositionIff(s, t);
      if ValidPosition(s, t) {
        if t.id in s.tokens {
          UpdateIndexed(s, t);
        } else if t.kind.Character? {
          JoinIconIndexed(s, t);
        } else {
          InsertIndexed(s, t);
        }
      }
    case Delete(id) => DeleteIndexed(s, id);
    case PingAction(_) =>
  }

  lemma {:induction false} RunRefines(s: RoomState, log: seq<Action>)
    requires Indexed(s) && Named(log) && Run(s, log).Ok?
    ensures Indexed(Run(s, log).room)
    ensures Pieces(Run(s, log).room) == Fold(Pieces(s), log)
  {
    hide Blocks;
    if log != [] {
      var front := log[..|log| - 1];
      RunRefines(s, front);
      StepRefines(Run(s, front).room, log[|log| - 1]);
    }
  }

  /** Every reachable room keeps its tables in agreement, and holds, in order and colours aside,
      the tokens the log means. No condition on kinds, contents or colours. */
  lemma CreateRoomRefines(log: seq<Action>)
    requires Named(log) && CreateRoom(log).Ok?
    ensures Indexed(CreateRoom(log).room)
    ensures Pieces(CreateRoom(log).room) == Replay(log)
  {
    hide Blocks;
    assert Pieces(EMPTY_ROOM) == [];
    RunRefines(EMPTY_ROOM, log);
  }

  /** The test for an occupied cell reads the owner's id as a truth value: once a token has been put
      on some cells, another one is refused there if and only if the first one's id is not empty. */
  lemma RefusedIffNamed(s: RoomState, t: Token, c: Cell, u: Token)
    requires InBox(c, t.box) && u.box == t.box
    ensures !ValidPosition(PutToken(s, t), u) <==> t.id != ""
  {
    hide Blocks;
    UnitBlocksMembers(t.box);
    var s' := PutToken(s, t);
    assert forall d :: d in UnitBlocks(t.box) ==> s'.owner[d] == t.id;
    assert c in UnitBlocks(u.box);
  }
}
