/** Tokens, colours and actions: api/src/game_components.py, api/src/colors.py, api/src/api/api_structures.py. */
module Components {
  import opened Sequences

  datatype Color = Color(red: int, green: int, blue: int)

  /** The palette, in the order both the server and the client hand colours out from. */
  const PALETTE: seq<Color> := [
    Color(255, 0, 0),
    Color(0, 228, 10),
    Color(0, 0, 255),
    Color(253, 216, 53),
    Color(2, 213, 247),
    Color(255, 0, 255),
    Color(94, 53, 177),
    Color(0, 0, 0)
  ]

  datatype Contents = Text(text: string) | Icon(iconId: string)

  /** The key under which tokens that look alike are listed. */
  function ContentId(contents: Contents): (r: string)
  {
    match contents
    case Text(text) => "text-" + text
    case Icon(iconId) => "icon-" + iconId
  }

  /** Two contents share a list exactly when they are equal: no text can be mistaken for an icon. */
  lemma ContentIdInjective(a: Contents, b: Contents)
    ensures ContentId(a) == ContentId(b) <==> a == b
  {
    if ContentId(a) == ContentId(b) {
      assert ContentId(a)[0] == ContentId(b)[0];
      assert ContentId(a)[5..] == ContentId(b)[5..];
      assert a == if a.Text? then Text(ContentId(a)[5..]) else Icon(ContentId(a)[5..]);
      assert b == if b.Text? then Text(ContentId(b)[5..]) else Icon(ContentId(b)[5..]);
    }
  }

  datatype Kind = Character | Floor

  datatype Cell = Cell(x: int, y: int, z: int)

  /** A box of cells; the end coordinates are not part of it. */
  datatype Box = Box(startX: int, startY: int, startZ: int, endX: int, endY: int, endZ: int)

  predicate InBox(c: Cell, b: Box)
  {
    b.startX <= c.x < b.endX && b.startY <= c.y < b.endY && b.startZ <= c.z < b.endZ
  }

  function UnitBox(c: Cell): Box
  {
    Box(c.x, c.y, c.z, c.x + 1, c.y + 1, c.z + 1)
  }

  datatype Token = Token(id: string, kind: Kind, contents: Contents, box: Box, color: Option<Color>)

  datatype Ping = Ping(id: string, x: int, y: int)

  datatype Action = Upsert(token: Token) | Delete(id: string) | PingAction(ping: Ping)

  datatype Request = Request(requestId: string, actions: seq<Action>)

  /** Every upserted token has a non-empty id. The occupancy tests of server and client rely on
      the truthiness of ids, so an empty id makes a cell look free. */
  ghost predicate Named(log: seq<Action>)
  {
    forall i :: 0 <= i < |log| && log[i].Upsert? ==> log[i].token.id != ""
  }

  predicate NonEmpty(b: Box)
  {
    b.startX < b.endX && b.startY < b.endY && b.startZ < b.endZ
  }

  /** Every upserted token takes up some cell; Token refuses other boxes when it is constructed
      (api/src/game_components.py:33-44). */
  ghost predicate Boxed(log: seq<Action>)
  {
    forall i :: 0 <= i < |log| && log[i].Upsert? ==> NonEmpty(log[i].token.box)
  }
}
