/** The wire conversion of web/src/network/RealBoardStateApiClient.ts:20-145. An api token has the
    fields of a server token. */
module Wire {
  import opened Sequences
  import opened Components
  import opened ClientTables

  function ToApiAction(a: ClientAction): Action
  {
    match a
    case UpsertToken(t) => Upsert(Token(t.id, t.kind, t.contents, UnitBox(t.pos), t.color))
    case DeleteId(id) => Delete(id)
    case AddPing(ping) => PingAction(Ping(ping.id, ping.x, ping.y))
  }

  function Corner(b: Box): Cell
  {
    Cell(b.startX, b.startY, b.startZ)
  }

  function ToAction(a: Action): ClientAction
  {
    match a
    case Upsert(t) => UpsertToken(ClientToken(t.id, t.kind, t.contents, Corner(t.box), t.color))
    case Delete(id) => DeleteId(id)
    case PingAction(ping) => AddPing(Ping(ping.id, ping.x, ping.y))
  }

  /** Snapshot tokens: only characters keep their colour. */
  function ToToken(t: Token): ClientToken
  {
    ClientToken(t.id, t.kind, t.contents, Corner(t.box), if t.kind.Character? then t.color else None)
  }

  function ToActions(actions: seq<Action>): (r: seq<ClientAction>)
    ensures |r| == |actions|
    ensures forall i :: 0 <= i < |r| ==> r[i] == ToAction(actions[i])
  {
    seq(|actions|, i requires 0 <= i < |actions| => ToAction(actions[i]))
  }

  predicate UnitSized(a: Action)
  {
    a.Upsert? ==> a.token.box == UnitBox(Corner(a.token.box))
  }

  /** What a client sends is what every client, itself included, gets back; and of all wire actions
      exactly those with unit boxes are what some client sends. */
  lemma WireRoundTrip(a: ClientAction, w: Action)
    ensures ToAction(ToApiAction(a)) == a && UnitSized(ToApiAction(a))
    ensures ToApiAction(ToAction(w)) == w <==> UnitSized(w)
    ensures a.AddPing? ==> ToApiAction(a) == PingAction(a.ping)
  {
  }
}
